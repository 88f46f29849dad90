/**
 The requests a hub has open with an agent (src/http_server/hosts/link.rs).  The class holds the
 sections under the lock; the state machine interleaves the tasks that use them.
 */
module AgentLink {
  import opened Basics

  const PENDING_LIMIT: nat := 64

  /** The waiting task of each request id, as long as the link is open. */
  type Pending = Option<map<nat, nat>>

  predicate Waits(p: Pending, id: nat) { p.Some? && id in p.value }

  function Removed(p: Pending, id: nat): Pending { if p.Some? then Some(p.value - {id}) else None }

  class Link {
    var pending: Pending
    var next: nat

    ghost predicate Valid()
      reads this
    {
      pending.Some? ==> |pending.value| <= 64 && (forall id | id in pending.value :: id < next)
    }

    constructor ()
      ensures Valid() && pending == Some(map[]) && next == 0
    {
      pending, next := Some(map[]), 0;
    }

    /** Takes a new request id, which nothing waits for. */
    method TakeId() returns (id: nat)
      requires Valid()
      modifies this`next
      ensures Valid() && id == old(next) && next == id + 1 && !Waits(pending, id)
    {
      id := next;
      next := next + 1;
    }

    /** Registers the waiter of a request; refused when closed or full. */
    method Register(id: nat, task: nat) returns (accepted: bool)
      requires Valid() && id < next && !Waits(pending, id)
      modifies this`pending
      ensures Valid()
      ensures accepted <==> old(pending).Some? && |old(pending).value| < 64
      ensures pending == if accepted then Some(old(pending).value[id := task]) else old(pending)
    {
      if pending.None? || |pending.value| >= PENDING_LIMIT {
        return false;
      }
      pending := Some(pending.value[id := task]);
      accepted := true;
    }

    method Forget(id: nat)
      requires Valid()
      modifies this`pending
      ensures Valid() && pending == Removed(old(pending), id) && !Waits(pending, id)
    {
      if pending.Some? {
        RemovalShrinks(pending.value, id);
        pending := Some(pending.value - {id});
      }
    }

    /** Takes the waiter a response is for; there is none for an unknown or forgotten id. */
    method Complete(id: nat) returns (task: Option<nat>)
      requires Valid()
      modifies this`pending
      ensures Valid() && pending == Removed(old(pending), id)
      ensures task == if Waits(old(pending), id) then Some(old(pending).value[id]) else None
      ensures task.None? ==> pending == old(pending)
    {
      task := None;
      if pending.Some? && id in pending.value {
        task := Some(pending.value[id]);
        RemovalShrinks(pending.value, id);
        pending := Some(pending.value - {id});
      } else {
        assert pending.Some? ==> pending.value - {id} == pending.value;
      }
    }

    method Close()
      requires Valid()
      modifies this`pending
      ensures Valid() && pending.None?
    {
      pending := None;
    }
  }

  lemma RemovalShrinks(m: map<nat, nat>, id: nat)
    ensures |m - {id}| <= |m|
  {
    assert (m - {id}).Keys == m.Keys - {id};
  }

  /******* Tasks *******/

  datatype Failure = Closed | QueueFull | TimedOut

  /** Where a requesting task is. */
  datatype Phase =
    | Numbered                       // has an id, about to register
    | Registered                     // about to queue its message
    | Waiting                        // waiting for the response
    | Forgetting(why: Failure)       // about to withdraw
    | Answered(response: int)
    | Failed(why: Failure)
    | Cancelled                      // its caller went away while it waited

  /** The one-shot channel of a request. */
  datatype Slot = Empty | Full(response: int) | Dropped

  datatype Task = Task(id: nat, phase: Phase, slot: Slot)

  /** A response whose waiter was taken from the table and that is about to be handed over. */
  datatype Delivery = Delivery(task: nat, id: nat, response: int)

  /** `silent` are the ids of session closes nobody waits for; `taken` the responses matched so far. */
  datatype State = State(pending: Pending, next: nat, tasks: map<nat, Task>, deliveries: map<nat, Delivery>,
                         silent: set<nat>, taken: map<nat, int>)

  datatype Action =
    | Request(t: nat)                                  // take an id
    | CloseSession                                     // take an id nobody waits for
    | Register(t: nat)
    | Queue(t: nat, queued: bool)
    | TimeOut(t: nat)
    | Cancel(t: nat)                                   // the waiting request is dropped
    | Withdraw(t: nat)
    | Receive(t: nat)
    | Respond(d: nat, id: nat, response: int)          // the agent's response reaches the link
    | Deliver(d: nat)
    | CloseLink

  const Initial: State := State(Some(map[]), 0, map[], map[], {}, map[])

  predicate InPhase(s: State, t: nat, p: Phase) { t in s.tasks && s.tasks[t].phase == p }

  predicate Enabled(s: State, a: Action) {
    match a
    case Request(t) => t !in s.tasks
    case CloseSession => true
    case Register(t) => InPhase(s, t, Numbered)
    case Queue(t, _) => InPhase(s, t, Registered)
    case TimeOut(t) => InPhase(s, t, Waiting)
    case Cancel(t) => InPhase(s, t, Waiting)
    case Withdraw(t) => t in s.tasks && s.tasks[t].phase.Forgetting?
    case Receive(t) => InPhase(s, t, Waiting) && s.tasks[t].slot != Empty
    case Respond(d, _, _) => d !in s.deliveries
    case Deliver(d) => d in s.deliveries && s.deliveries[d].task in s.tasks
    case CloseLink => true
  }

  function Put(s: State, t: nat, task: Task): State { s.(tasks := s.tasks[t := task]) }

  function Do(s: State, a: Action): State
    requires Enabled(s, a)
  {
    match a
    case Request(t) => Put(s, t, Task(s.next, Numbered, Empty)).(next := s.next + 1)
    case CloseSession => s.(next := s.next + 1, silent := s.silent + {s.next})
    case Register(t) =>
      var k := s.tasks[t];
      if s.pending.None? then Put(s, t, k.(phase := Failed(Closed)))
      else if |s.pending.value| >= PENDING_LIMIT then Put(s, t, k.(phase := Failed(QueueFull)))
      else Put(s, t, k.(phase := Registered)).(pending := Some(s.pending.value[k.id := t]))
    case Queue(t, queued) =>
      Put(s, t, s.tasks[t].(phase := if queued then Waiting else Forgetting(QueueFull)))
    case TimeOut(t) => Put(s, t, s.tasks[t].(phase := Forgetting(TimedOut)))
    case Cancel(t) => Put(s, t, s.tasks[t].(phase := Cancelled))
    case Withdraw(t) =>
      Put(s, t, s.tasks[t].(phase := Failed(s.tasks[t].phase.why))).(pending := Removed(s.pending, s.tasks[t].id))
    case Receive(t) =>
      var k := s.tasks[t];
      Put(s, t, k.(phase := if k.slot.Full? then Answered(k.slot.response) else Failed(Closed)))
    case Respond(d, id, response) =>
      if Waits(s.pending, id)
      then s.(pending := Removed(s.pending, id), taken := s.taken[id := response],
              deliveries := s.deliveries[d := Delivery(s.pending.value[id], id, response)])
      else s
    case Deliver(d) =>
      var x := s.deliveries[d];
      Put(s, x.task, s.tasks[x.task].(slot := Full(x.response))).(deliveries := s.deliveries - {d})
    case CloseLink =>
      s.(pending := None,
         tasks := map t | t in s.tasks :: if Waits(s.pending, s.tasks[t].id) then s.tasks[t].(slot := Dropped) else s.tasks[t])
  }

  /******* What every interleaving keeps *******/

  ghost predicate BeingDelivered(s: State, t: nat) {
    exists d :: d in s.deliveries && s.deliveries[d].task == t
  }

  predicate Unsettled(p: Phase) { p.Registered? || p.Waiting? || p.Forgetting? || p.Cancelled? }

  /** A task that may wait has its response, or will have it, or the link still expects it. */
  ghost predicate TaskOk(s: State, t: nat, k: Task) {
    && k.id < s.next && k.id !in s.silent
    && (k.phase.Numbered? ==> k.slot == Empty && k.id !in s.taken && !Waits(s.pending, k.id))
    && (k.phase.Registered? || k.phase.Waiting? ==>
          (Waits(s.pending, k.id) && s.pending.value[k.id] == t) || k.slot != Empty || BeingDelivered(s, t))
    && (Waits(s.pending, k.id) ==> Unsettled(k.phase) && k.slot == Empty && s.pending.value[k.id] == t && k.id !in s.taken)
    && (k.slot.Full? ==> k.id in s.taken && s.taken[k.id] == k.slot.response)
    && (k.phase.Answered? ==> k.id in s.taken && s.taken[k.id] == k.phase.response)
  }

  ghost predicate DeliveryOk(s: State, x: Delivery) {
    && x.task in s.tasks && s.tasks[x.task].id == x.id && s.tasks[x.task].slot == Empty
    && !s.tasks[x.task].phase.Numbered?
    && !Waits(s.pending, x.id) && x.id in s.taken && s.taken[x.id] == x.response
  }

  ghost predicate PendingOk(s: State) {
    s.pending.Some? ==>
      |s.pending.value| <= 64 && Waiters(s.pending.value, s.tasks)
  }

  ghost predicate Distinct(s: State) {
    && (forall t, u | t in s.tasks && u in s.tasks && t != u :: s.tasks[t].id != s.tasks[u].id)
    && (forall d, e | d in s.deliveries && e in s.deliveries && d != e :: s.deliveries[d].task != s.deliveries[e].task)
    && (forall id | id in s.silent || id in s.taken :: id < s.next)
  }

  ghost predicate Good(s: State) {
    && PendingOk(s) && Distinct(s)
    && (forall t | t in s.tasks :: TaskOk(s, t, s.tasks[t]))
    && (forall d | d in s.deliveries :: DeliveryOk(s, s.deliveries[d]))
  }

  lemma PendingStays(s: State, a: Action)
    requires Good(s) && Enabled(s, a)
    ensures PendingOk(Do(s, a))
  {
    TasksKeepIds(s, a);
    PendingChange(s, a);
    if s.pending.Some? {
      PendingSurvivesTasks(s.pending.value, s.tasks, Do(s, a).tasks);
      if a.Withdraw? {
        RemovalKeepsPending(s.pending.value, Do(s, a).tasks, s.tasks[a.t].id);
      } else if a.Respond? {
        RemovalKeepsPending(s.pending.value, Do(s, a).tasks, a.id);
      }
    }
  }

  /** Only four actions change who waits. */
  lemma PendingChange(s: State, a: Action)
    requires Enabled(s, a)
    ensures var n := Do(s, a);
            || n.pending == s.pending || n.pending.None?
            || (a.Withdraw? && n.pending == Removed(s.pending, s.tasks[a.t].id))
            || (a.Respond? && n.pending == Removed(s.pending, a.id))
            || (a.Register? && s.pending.Some? && |s.pending.value| < 64
                && n.pending == Some(s.pending.value[s.tasks[a.t].id := a.t]))
  {
  }

  ghost predicate Waiters(m: map<nat, nat>, tasks: map<nat, Task>) {
    forall id | id in m :: m[id] in tasks && tasks[m[id]].id == id
  }

  lemma RemovalKeepsPending(m: map<nat, nat>, tasks: map<nat, Task>, id: nat)
    requires |m| <= 64 && Waiters(m, tasks)
    ensures |m - {id}| <= 64 && Waiters(m - {id}, tasks)
  {
    RemovalShrinks(m, id);
  }

  lemma PendingSurvivesTasks(m: map<nat, nat>, tasks: map<nat, Task>, next: map<nat, Task>)
    requires Waiters(m, tasks) && forall t | t in tasks :: t in next && next[t].id == tasks[t].id
    ensures Waiters(m, next)
  {
  }

  lemma TasksKeepIds(s: State, a: Action)
    requires Enabled(s, a)
    ensures forall t | t in s.tasks :: t in Do(s, a).tasks && Do(s, a).tasks[t].id == s.tasks[t].id
    ensures forall t | t in Do(s, a).tasks && t !in s.tasks :: Do(s, a).tasks[t].id == s.next < Do(s, a).next && a == Request(t)
  {
  }

  lemma DistinctStays(s: State, a: Action)
    requires Good(s) && Enabled(s, a)
    ensures Distinct(Do(s, a))
  {
    TaskIdsStayDistinct(s, a);
    DeliveriesStayDistinct(s, a);
    KnownIdsStayOld(s, a);
  }

  lemma TaskIdsStayDistinct(s: State, a: Action)
    requires Good(s) && Enabled(s, a)
    ensures var n := Do(s, a); forall t, u | t in n.tasks && u in n.tasks && t != u :: n.tasks[t].id != n.tasks[u].id
  {
    TasksKeepIds(s, a);
    assert forall t | t in s.tasks :: TaskOk(s, t, s.tasks[t]);
  }

  lemma DeliveriesStayDistinct(s: State, a: Action)
    requires Good(s) && Enabled(s, a)
    ensures var n := Do(s, a);
            forall d, e | d in n.deliveries && e in n.deliveries && d != e :: n.deliveries[d].task != n.deliveries[e].task
  {
    if a.Respond? && Waits(s.pending, a.id) {
      forall d | d in s.deliveries
        ensures s.deliveries[d].task != s.pending.value[a.id]
      {
        assert DeliveryOk(s, s.deliveries[d]);
      }
    } else {
      assert Do(s, a).deliveries.Keys <= s.deliveries.Keys;
    }
  }

  lemma KnownIdsStayOld(s: State, a: Action)
    requires Good(s) && Enabled(s, a)
    ensures var n := Do(s, a); forall id | id in n.silent || id in n.taken :: id < n.next
  {
    if a.Respond? {
      WaitedIdsAreOld(s, a.id);
    }
  }

  /** Whether the action is the task's own, or is about its response. */
  predicate Concerns(s: State, a: Action, t: nat)
    requires Enabled(s, a) && t in s.tasks
  {
    match a
    case Request(_) => false
    case CloseSession => false
    case Register(u) => u == t
    case Queue(u, _) => u == t
    case TimeOut(u) => u == t
    case Cancel(u) => u == t
    case Withdraw(u) => u == t
    case Receive(u) => u == t
    case Respond(_, id, _) => id == s.tasks[t].id
    case Deliver(d) => s.deliveries[d].task == t
    case CloseLink => true
  }

  lemma StillDelivered(s: State, a: Action, t: nat)
    requires Enabled(s, a) && BeingDelivered(s, t)
    requires a.Deliver? ==> s.deliveries[a.d].task != t
    ensures BeingDelivered(Do(s, a), t)
  {
    var d :| d in s.deliveries && s.deliveries[d].task == t;
    assert d in Do(s, a).deliveries && Do(s, a).deliveries[d].task == t;
  }

  lemma OtherTaskStays(s: State, a: Action, t: nat)
    requires Good(s) && Enabled(s, a) && t in s.tasks && !Concerns(s, a, t)
    ensures t in Do(s, a).tasks && TaskOk(Do(s, a), t, Do(s, a).tasks[t])
  {
    var n := Do(s, a);
    var k := s.tasks[t];
    assert TaskOk(s, t, k);
    assert t in n.tasks && n.tasks[t] == k;
    assert k.id < n.next && k.id !in n.silent;
    assert Waits(n.pending, k.id) <==> Waits(s.pending, k.id);
    assert Waits(s.pending, k.id) ==> n.pending.value[k.id] == s.pending.value[k.id];
    assert k.id in n.taken <==> k.id in s.taken;
    assert k.id in s.taken ==> n.taken[k.id] == s.taken[k.id];
    if BeingDelivered(s, t) {
      StillDelivered(s, a, t);
    }
  }

  lemma OwnStepStays(s: State, a: Action, t: nat)
    requires Good(s) && Enabled(s, a) && t in s.tasks && Concerns(s, a, t)
    requires !a.Respond? && !a.Deliver? && !a.CloseLink?
    ensures t in Do(s, a).tasks && TaskOk(Do(s, a), t, Do(s, a).tasks[t])
  {
    assert TaskOk(s, t, s.tasks[t]);
    if BeingDelivered(s, t) {
      StillDelivered(s, a, t);
    }
  }

  lemma ResponseStepStays(s: State, a: Action, t: nat)
    requires Good(s) && Enabled(s, a) && t in s.tasks && Concerns(s, a, t)
    requires a.Respond? || a.Deliver? || a.CloseLink?
    ensures t in Do(s, a).tasks && TaskOk(Do(s, a), t, Do(s, a).tasks[t])
  {
    assert TaskOk(s, t, s.tasks[t]);
    if a.Deliver? {
      assert DeliveryOk(s, s.deliveries[a.d]);
    } else if BeingDelivered(s, t) {
      StillDelivered(s, a, t);
    } else if a.Respond? && Waits(s.pending, a.id) {
      assert Do(s, a).deliveries[a.d].task == t;
    }
  }

  lemma TaskStays(s: State, a: Action, t: nat)
    requires Good(s) && Enabled(s, a) && t in Do(s, a).tasks
    ensures TaskOk(Do(s, a), t, Do(s, a).tasks[t])
  {
    if t !in s.tasks {
      NewTaskIsOk(s, a);
    } else if !Concerns(s, a, t) {
      OtherTaskStays(s, a, t);
    } else if a.Respond? || a.Deliver? || a.CloseLink? {
      ResponseStepStays(s, a, t);
    } else {
      OwnStepStays(s, a, t);
    }
  }

  lemma WaitedIdsAreOld(s: State, id: nat)
    requires Good(s)
    ensures Waits(s.pending, id) ==> id < s.next && id !in s.taken && id !in s.silent
  {
    if Waits(s.pending, id) {
      assert TaskOk(s, s.pending.value[id], s.tasks[s.pending.value[id]]);
    }
  }

  lemma NewTaskIsOk(s: State, a: Action)
    requires Good(s) && Enabled(s, a) && a.Request?
    ensures TaskOk(Do(s, a), a.t, Do(s, a).tasks[a.t])
  {
    WaitedIdsAreOld(s, s.next);
  }

  lemma DeliveryStays(s: State, a: Action, d: nat)
    requires Good(s) && Enabled(s, a) && d in Do(s, a).deliveries
    ensures DeliveryOk(Do(s, a), Do(s, a).deliveries[d])
  {
    if d in s.deliveries {
      assert DeliveryOk(s, s.deliveries[d]);
    }
  }

  lemma GoodStays(s: State, a: Action)
    requires Good(s) && Enabled(s, a)
    ensures Good(Do(s, a))
  {
    PendingStays(s, a);
    DistinctStays(s, a);
    forall t | t in Do(s, a).tasks ensures TaskOk(Do(s, a), t, Do(s, a).tasks[t]) { TaskStays(s, a, t); }
    forall d | d in Do(s, a).deliveries ensures DeliveryOk(Do(s, a), Do(s, a).deliveries[d]) { DeliveryStays(s, a, d); }
  }

  predicate Possible(s: State, run: seq<Action>)
    decreases |run|
  {
    run == [] || (Enabled(s, run[0]) && Possible(Do(s, run[0]), run[1..]))
  }

  function After(s: State, run: seq<Action>): State
    requires Possible(s, run)
    decreases |run|
  {
    if run == [] then s else After(Do(s, run[0]), run[1..])
  }

  lemma {:induction false} RunStaysGood(s: State, run: seq<Action>)
    requires Good(s) && Possible(s, run)
    ensures Good(After(s, run))
    decreases |run|
  {
    if run != [] {
      GoodStays(s, run[0]);
      RunStaysGood(Do(s, run[0]), run[1..]);
    }
  }

  /******* What it means for callers *******/

  /** A run is its first actions and then its last one. */
  lemma {:induction false} LastAction(s: State, run: seq<Action>)
    requires Possible(s, run) && run != []
    ensures var front, a := run[..|run| - 1], run[|run| - 1];
            Possible(s, front) && Enabled(After(s, front), a) && After(s, run) == Do(After(s, front), a)
    decreases |run|
  {
    if |run| > 1 {
      LastAction(Do(s, run[0]), run[1..]);
      assert run[1..][..|run| - 2] == run[..|run| - 1][1..];
    } else {
      assert run[..0] == [];
    }
  }

  /** Action `i` of the run is that response, at a time when the id was waited for. */
  ghost predicate RespondedBy(run: seq<Action>, i: nat, id: nat, response: int) {
    && i < |run| && Possible(Initial, run[..i]) && Waits(After(Initial, run[..i]).pending, id)
    && run[i].Respond? && run[i].id == id && run[i].response == response
  }

  lemma TakenChange(s: State, a: Action, id: nat)
    requires Enabled(s, a) && id in Do(s, a).taken
    ensures (id in s.taken && Do(s, a).taken[id] == s.taken[id])
            || (a.Respond? && a.id == id && a.response == Do(s, a).taken[id] && Waits(s.pending, id))
  {
  }

  lemma {:induction false} TakenByAResponse(run: seq<Action>, id: nat)
    requires Possible(Initial, run) && id in After(Initial, run).taken
    ensures exists i: nat :: RespondedBy(run, i, id, After(Initial, run).taken[id])
    decreases |run|
  {
    var front, a := run[..|run| - 1], run[|run| - 1];
    LastAction(Initial, run);
    var s, response := After(Initial, front), After(Initial, run).taken[id];
    TakenChange(s, a, id);
    if id in s.taken && s.taken[id] == response {
      TakenByAResponse(front, id);
      var i: nat :| RespondedBy(front, i, id, response);
      assert front[..i] == run[..i];
      assert RespondedBy(run, i, id, response);
    } else {
      assert RespondedBy(run, |run| - 1, id, response);
    }
  }

  /**
   In every interleaving: at most 64 pending, ids are distinct, and an answer is a response of the
   run to the task's own id, given while the task waited for it.
   */
  lemma AnswersMatchRequests(run: seq<Action>, t: nat)
    requires Possible(Initial, run) && t in After(Initial, run).tasks
    ensures var s := After(Initial, run); var k := s.tasks[t];
            && (s.pending.Some? ==> |s.pending.value| <= 64)
            && (k.phase.Answered? ==> exists i: nat :: RespondedBy(run, i, k.id, k.phase.response))
            && (forall u | u in s.tasks && u != t :: s.tasks[u].id != k.id)
  {
    RunStaysGood(Initial, run);
    var s := After(Initial, run);
    assert TaskOk(s, t, s.tasks[t]);
    if s.tasks[t].phase.Answered? {
      TakenByAResponse(run, s.tasks[t].id);
    }
  }

  /** A second response for an id never matches: the first one removed its waiter. */
  lemma OneResponsePerRequest(run: seq<Action>, id: nat)
    requires Possible(Initial, run)
    ensures var s := After(Initial, run);
            id in s.taken || id in s.silent || id >= s.next ==> !Waits(s.pending, id)
  {
    RunStaysGood(Initial, run);
    WaitedIdsAreOld(After(Initial, run), id);
  }

  /** A response without a waiter (forgotten, fire-and-forget, repeated or unknown) has no effect. */
  lemma UnmatchedResponseIsDropped(run: seq<Action>, d: nat, id: nat, response: int)
    requires Possible(Initial, run) && Enabled(After(Initial, run), Respond(d, id, response))
    requires var s := After(Initial, run);
             id in s.taken || id in s.silent || id >= s.next || (exists t :: t in s.tasks && s.tasks[t].id == id && s.tasks[t].phase.Failed?)
    ensures Do(After(Initial, run), Respond(d, id, response)) == After(Initial, run)
  {
    var s := After(Initial, run);
    RunStaysGood(Initial, run);
    OneResponsePerRequest(run, id);
    if t :| t in s.tasks && s.tasks[t].id == id && s.tasks[t].phase.Failed? {
      assert TaskOk(s, t, s.tasks[t]);
    }
  }

  /** Once closed, a link stays closed in every continuation, refuses every request and drops every response. */
  lemma {:induction false} ClosedForGood(s: State, run: seq<Action>)
    requires s.pending.None? && Possible(s, run)
    ensures var t := After(s, run);
            && t.pending.None?
            && (forall a | Enabled(t, a) && a.Register? :: Do(t, a).tasks[a.t].phase == Failed(Closed))
            && (forall a | Enabled(t, a) && a.Respond? :: Do(t, a) == t)
    decreases |run|
  {
    if run != [] {
      ClosedForGood(Do(s, run[0]), run[1..]);
    }
  }

  /** After a close nobody waits in vain: every waiter has its answer or failure, or it is being handed over. */
  lemma ClosedReleasesWaiters(run: seq<Action>, t: nat)
    requires Possible(Initial, run) && After(Initial, run).pending.None?
    requires InPhase(After(Initial, run), t, Waiting)
    ensures Enabled(After(Initial, run), Receive(t)) || BeingDelivered(After(Initial, run), t)
  {
    RunStaysGood(Initial, run);
    var s := After(Initial, run);
    assert TaskOk(s, t, s.tasks[t]);
  }

  predicate Finished(p: Phase) { p.Answered? || p.Failed? || p.Cancelled? }

  /**
   A dropped request keeps its place among the 64 until its response arrives, which reaches
   nobody, or the link closes.
   */
  lemma CancelledKeepsItsPlace(run: seq<Action>, t: nat, a: Action)
    requires Possible(Initial, run) && Enabled(After(Initial, run), a)
    requires InPhase(After(Initial, run), t, Cancelled)
    ensures var s := After(Initial, run); var id := s.tasks[t].id;
            Waits(s.pending, id) ==>
              (Waits(Do(s, a).pending, id) <==> a != CloseLink && !(a.Respond? && a.id == id))
  {
    RunStaysGood(Initial, run);
    var s := After(Initial, run);
    if Waits(s.pending, s.tasks[t].id) {
      PlaceIsKept(s, t, a);
    }
  }

  lemma PlaceIsKept(s: State, t: nat, a: Action)
    requires Distinct(s) && Enabled(s, a) && InPhase(s, t, Cancelled) && Waits(s.pending, s.tasks[t].id)
    ensures Waits(Do(s, a).pending, s.tasks[t].id) <==> a != CloseLink && !(a.Respond? && a.id == s.tasks[t].id)
  {
    if a.Withdraw? {
      assert a.t != t && s.tasks[a.t].id != s.tasks[t].id;
    }
  }

  /** A task that is done stays as it is in every continuation. */
  lemma {:induction false} OutcomeIsFinal(s: State, run: seq<Action>, t: nat)
    requires Possible(s, run) && t in s.tasks && Finished(s.tasks[t].phase)
    ensures t in After(s, run).tasks && After(s, run).tasks[t].phase == s.tasks[t].phase
    decreases |run|
  {
    if run != [] {
      OutcomeIsFinal(Do(s, run[0]), run[1..], t);
    }
  }

  /******* That requests get through *******/

  /** A request is accepted exactly while the link is open and fewer than 64 wait. */
  lemma RegisteredExactlyWhen(s: State, t: nat)
    requires Enabled(s, Register(t))
    ensures var n := Do(s, Register(t)); var p := n.tasks[t].phase;
            if s.pending.None? then p == Failed(Closed) && n.pending == s.pending
            else if |s.pending.value| < 64 then p == Registered && n.pending == Some(s.pending.value[s.tasks[t].id := t])
            else p == Failed(QueueFull) && n.pending == s.pending
  {
  }

  lemma RunFirst(s: State, a: Action, run: seq<Action>)
    requires Enabled(s, a) && Possible(Do(s, a), run)
    ensures Possible(s, [a] + run) && After(s, [a] + run) == After(Do(s, a), run)
  {
    assert ([a] + run)[1..] == run;
  }

  lemma BackFrom(s: State, a: Action, n: State, run: seq<Action>) returns (longer: seq<Action>)
    requires Enabled(s, a) && Do(s, a) == n && Possible(n, run)
    ensures Possible(s, longer) && After(s, longer) == After(n, run)
  {
    longer := [a] + run;
    RunFirst(s, a, run);
  }

  /** A task alone on a link, at some point of its request. */
  function Alone(pending: map<nat, nat>, t: nat, phase: Phase, slot: Slot, deliveries: map<nat, Delivery>, taken: map<nat, int>): State {
    State(Some(pending), 1, map[t := Task(0, phase, slot)], deliveries, {}, taken)
  }

  /** A response to a request that was registered and queued reaches the task that made it. */
  lemma RequestIsAnswered(t: nat, d: nat, response: int) returns (run: seq<Action>)
    ensures Possible(Initial, run) && InPhase(After(Initial, run), t, Answered(response))
    ensures After(Initial, run).pending == Some(map[])
  {
    var taken := map[0 := response];
    var end := Alone(map[], t, Answered(response), Full(response), map[], taken);
    var full := Alone(map[], t, Waiting, Full(response), map[], taken);
    var delivering := Alone(map[], t, Waiting, Empty, map[d := Delivery(t, 0, response)], taken);
    assert After(end, []) == end;
    assert map[d := Delivery(t, 0, response)] - {d} == map[];
    run := BackFrom(full, Receive(t), end, []);
    run := BackFrom(delivering, Deliver(d), full, run);
    run := QueuedFrom(t, d, response, run);
  }

  lemma QueuedFrom(t: nat, d: nat, response: int, rest: seq<Action>) returns (run: seq<Action>)
    requires Possible(Alone(map[], t, Waiting, Empty, map[d := Delivery(t, 0, response)], map[0 := response]), rest)
    ensures Possible(Initial, run)
    ensures After(Initial, run) == After(Alone(map[], t, Waiting, Empty, map[d := Delivery(t, 0, response)], map[0 := response]), rest)
  {
    var delivering := Alone(map[], t, Waiting, Empty, map[d := Delivery(t, 0, response)], map[0 := response]);
    var waiting := Alone(map[0 := t], t, Waiting, Empty, map[], map[]);
    var registered := Alone(map[0 := t], t, Registered, Empty, map[], map[]);
    var numbered := Alone(map[], t, Numbered, Empty, map[], map[]);
    assert map[0 := t] - {0} == map[];
    run := BackFrom(waiting, Respond(d, 0, response), delivering, rest);
    run := BackFrom(registered, Queue(t, true), waiting, run);
    run := BackFrom(numbered, Register(t), registered, run);
    run := BackFrom(Initial, Request(t), numbered, run);
  }

  /** A waiting request fails as closed when the link closes, and as timed out when it gives up. */
  lemma WaitersFail(s: State, t: nat)
    requires Good(s) && InPhase(s, t, Waiting) && Waits(s.pending, s.tasks[t].id)
    ensures var closed := Do(s, CloseLink);
            Enabled(closed, Receive(t)) && InPhase(Do(closed, Receive(t)), t, Failed(Closed))
    ensures var late := Do(s, TimeOut(t));
            && Enabled(late, Withdraw(t)) && InPhase(Do(late, Withdraw(t)), t, Failed(TimedOut))
            && !Waits(Do(late, Withdraw(t)).pending, s.tasks[t].id)
  {
    assert TaskOk(s, t, s.tasks[t]);
  }

  /** A request whose message cannot be queued is withdrawn. */
  lemma UnqueuedFails(s: State, t: nat)
    requires Good(s) && InPhase(s, t, Registered)
    ensures var n := Do(s, Queue(t, false));
            && Enabled(n, Withdraw(t)) && InPhase(Do(n, Withdraw(t)), t, Failed(QueueFull))
            && !Waits(Do(n, Withdraw(t)).pending, s.tasks[t].id)
    ensures InPhase(Do(s, Queue(t, true)), t, Waiting)
  {
  }
}
