/**
 File activity probes (src/privileged_helper/system/files.bpf.c): one pending entry per thread
 with a depth counter, set up by the outermost counted VFS call.  The specification is the
 tree of calls a thread makes.
 */
module FileCalls {
  import opened Basics

  /** The depth counter is an unsigned 32-bit number. */
  const DEPTHS: nat := 0x1_0000_0000

  datatype Inode = Inode(number: nat, device: nat, generation: nat, mode: bv32)

  /** What the probe sees of a call: `file` is the address of the file, 0 for none. */
  datatype Target = Target(file: nat, inode: Option<Inode>, flags: bv32, start: nat, write: nat)

  /** Regular files, except for kernel threads and I/O workers. */
  predicate Counted(t: Target) {
    t.file != 0 && t.flags & 0x0020_0010 == 0 && t.inode.Some? && t.inode.value.mode & 0xF000 == 0x8000
  }

  datatype Event = Event(pid: nat, start: nat, inode: nat, device: nat, generation: nat, write: nat, bytes: nat, path: string)

  datatype Pending = Pending(event: Event, file: nat, depth: nat)

  /**
   What happens on a thread.  `room` and `sent` are the kernel's answers: whether an entry could
   be added to the pending map, and whether the event buffer took the event.
   */
  datatype Signal =
    | Enter(target: Target, room: bool)
    | Permission(file: nat, path: Option<string>)
    | Leave(ret: int, sent: bool)
    | ThreadExit

  function PidOf(tid: nat): nat { tid / DEPTHS }

  function Opened(tid: nat, t: Target): Pending
    requires t.inode.Some?
  {
    Pending(Event(PidOf(tid), t.start, t.inode.value.number, t.inode.value.device, t.inode.value.generation, t.write, 0, ""),
            t.file, 1)
  }

  function PathText(path: Option<string>): string { if path.Some? then path.value else "" }

  /** One thread's part of the maps: its entry, the events it sent, the events it lost. */
  datatype Thread = Thread(pending: Option<Pending>, events: seq<Event>, lost: nat)

  function Step(tid: nat, th: Thread, s: Signal): Thread {
    match s
    case Enter(t, room) =>
      if th.pending.Some? then th.(pending := Some(th.pending.value.(depth := (th.pending.value.depth + 1) % DEPTHS)))
      else if !Counted(t) then th
      else if !room then th.(lost := th.lost + 1)
      else th.(pending := Some(Opened(tid, t)))
    case Permission(file, path) =>
      if th.pending.None? || th.pending.value.file != file || th.pending.value.depth != 1 then th
      else th.(pending := Some(th.pending.value.(event := th.pending.value.event.(path := PathText(path)))))
    case Leave(ret, sent) =>
      if th.pending.None? then th
      else if th.pending.value.depth > 1 then
        th.(pending := Some(th.pending.value.(depth := th.pending.value.depth - 1)))
      else if ret > 0 then
        if sent then Thread(None, th.events + [th.pending.value.event.(bytes := ret)], th.lost)
        else Thread(None, th.events, th.lost + 1)
      else th.(pending := None)
    case ThreadExit => th.(pending := None)
  }

  function Run(tid: nat, th: Thread, signals: seq<Signal>): Thread
    decreases |signals|
  {
    if signals == [] then th else Run(tid, Step(tid, th, signals[0]), signals[1..])
  }

  /******* The calls of a thread, as a tree *******/

  /** What a thread does in order; `inner` is what happens between a call's entry and its exit. */
  datatype Calls =
    | Done
    | Check(file: nat, path: Option<string>, rest: Calls)
    | Call(target: Target, room: bool, inner: Calls, ret: int, sent: bool, rest: Calls)

  function Signals(c: Calls): seq<Signal> {
    match c
    case Done => []
    case Check(file, path, rest) => [Permission(file, path)] + Signals(rest)
    case Call(t, room, inner, ret, sent, rest) =>
      [Enter(t, room)] + (Signals(inner) + ([Leave(ret, sent)] + Signals(rest)))
  }

  function Height(c: Calls): nat {
    match c
    case Done => 0
    case Check(_, _, rest) => Height(rest)
    case Call(_, _, inner, _, _, rest) => if Height(inner) + 1 > Height(rest) then Height(inner) + 1 else Height(rest)
  }

  /** The path of the last permission check of `file` made by the call itself. */
  function LastPath(file: nat, inner: Calls, path: string): string {
    match inner
    case Done => path
    case Check(f, p, rest) => LastPath(file, rest, if f == file then PathText(p) else path)
    case Call(_, _, _, _, _, rest) => LastPath(file, rest, path)
  }

  function EventOf(tid: nat, t: Target, inner: Calls, ret: nat): Event
    requires t.inode.Some?
  {
    Event(PidOf(tid), t.start, t.inode.value.number, t.inode.value.device, t.inode.value.generation, t.write, ret,
          LastPath(t.file, inner, ""))
  }

  /**
   What should be reported: a counted call that transferred something is one event, and nothing
   inside it is; a call that is not counted stands for the calls inside it.
   */
  function Reported(tid: nat, c: Calls): seq<Event> {
    match c
    case Done => []
    case Check(_, _, rest) => Reported(tid, rest)
    case Call(t, room, inner, ret, sent, rest) =>
      (if !Counted(t) || !room then Reported(tid, inner)
       else if ret > 0 && sent then [EventOf(tid, t, inner, ret)]
       else [])
      + Reported(tid, rest)
  }

  /** What is lost: calls that found no room, and events the buffer refused. */
  function Lost(c: Calls): nat {
    match c
    case Done => 0
    case Check(_, _, rest) => Lost(rest)
    case Call(t, room, inner, ret, sent, rest) =>
      (if !Counted(t) then Lost(inner)
       else if !room then 1 + Lost(inner)
       else if ret > 0 && !sent then 1 else 0)
      + Lost(rest)
  }

  lemma {:induction false} RunJoined(tid: nat, th: Thread, a: seq<Signal>, b: seq<Signal>)
    ensures Run(tid, th, a + b) == Run(tid, Run(tid, th, a), b)
    decreases |a|
  {
    if a == [] {
      assert a + b == b;
    } else {
      assert (a + b)[0] == a[0] && (a + b)[1..] == a[1..] + b;
      RunJoined(tid, Step(tid, th, a[0]), a[1..], b);
    }
  }

  lemma RunOne(tid: nat, th: Thread, s: Signal, rest: seq<Signal>)
    ensures Run(tid, th, [s] + rest) == Run(tid, Step(tid, th, s), rest)
  {
    assert ([s] + rest)[1..] == rest;
  }

  /** Inside a counted call nothing is reported or lost, and the depth returns to what it was. */
  lemma {:induction false} InnerCallsAreSilent(tid: nat, th: Thread, c: Calls)
    requires th.pending.Some? && 1 <= th.pending.value.depth && th.pending.value.depth + Height(c) < DEPTHS
    ensures var p := th.pending.value;
            Run(tid, th, Signals(c)) == th.(pending := Some(p.(event := p.event.(path :=
              if p.depth == 1 then LastPath(p.file, c, p.event.path) else p.event.path))))
    decreases c
  {
    match c
    case Done =>
    case Check(file, path, rest) =>
      RunOne(tid, th, Permission(file, path), Signals(rest));
      InnerCallsAreSilent(tid, Step(tid, th, Permission(file, path)), rest);
    case Call(t, room, inner, ret, sent, rest) =>
      var deeper := Step(tid, th, Enter(t, room));
      InnerCallsAreSilent(tid, deeper, inner);
      CallRuns(tid, th, t, room, inner, ret, sent, rest);
      assert Step(tid, deeper, Leave(ret, sent)) == th;
      InnerCallsAreSilent(tid, th, rest);
  }

  lemma CallRuns(tid: nat, th: Thread, t: Target, room: bool, inner: Calls, ret: int, sent: bool, rest: Calls)
    ensures Run(tid, th, Signals(Call(t, room, inner, ret, sent, rest))) ==
            Run(tid, Step(tid, Run(tid, Step(tid, th, Enter(t, room)), Signals(inner)), Leave(ret, sent)), Signals(rest))
  {
    var tail := [Leave(ret, sent)] + Signals(rest);
    RunOne(tid, th, Enter(t, room), Signals(inner) + tail);
    RunJoined(tid, Step(tid, th, Enter(t, room)), Signals(inner), tail);
    RunOne(tid, Run(tid, Step(tid, th, Enter(t, room)), Signals(inner)), Leave(ret, sent), Signals(rest));
  }

  /** The depth counter stands in for the call stack: exactly the reported events are sent. */
  lemma {:induction false} CallsAreReported(tid: nat, th: Thread, c: Calls)
    requires th.pending.None? && Height(c) < DEPTHS
    ensures Run(tid, th, Signals(c)) == Thread(None, th.events + Reported(tid, c), th.lost + Lost(c))
    decreases c
  {
    match c
    case Done =>
      assert th.events + [] == th.events;
    case Check(file, path, rest) =>
      RunOne(tid, th, Permission(file, path), Signals(rest));
      CallsAreReported(tid, th, rest);
    case Call(t, room, inner, ret, sent, rest) =>
      CallRuns(tid, th, t, room, inner, ret, sent, rest);
      var one := Alone(c);
      var entered := Step(tid, th, Enter(t, room));
      EnteringRuns(tid, th, t, room);
      if Counted(t) && room {
        InnerCallsAreSilent(tid, entered, inner);
        assert Run(tid, entered, Signals(inner)).pending == Some(Inside(tid, one));
      } else {
        CallsAreReported(tid, entered, inner);
      }
      var left := Step(tid, Run(tid, entered, Signals(inner)), Leave(ret, sent));
      LeavingReports(tid, th, Run(tid, entered, Signals(inner)), one);
      CallsAreReported(tid, left, rest);
      Joined(th.events, Reported(tid, one), Reported(tid, rest));
      CallReports(tid, c);
  }

  /** The exit of a call, given what happened inside it. */
  lemma LeavingReports(tid: nat, th: Thread, before: Thread, one: Calls)
    requires one.Call? && one.rest.Done?
    requires if Counted(one.target) && one.room
             then before == Thread(Some(Inside(tid, one)), th.events, th.lost)
             else before == Thread(None, th.events + Reported(tid, one.inner),
                                   th.lost + Lost(one.inner) + if Counted(one.target) then 1 else 0)
    ensures Step(tid, before, Leave(one.ret, one.sent)) == Thread(None, th.events + Reported(tid, one), th.lost + Lost(one))
  {
    assert Reported(tid, one.rest) == [] && Lost(one.rest) == 0;
    if Counted(one.target) && one.room {
      assert th.events + [] == th.events;
    } else {
      assert Reported(tid, one) == Reported(tid, one.inner) + [] == Reported(tid, one.inner);
    }
  }

  /** The pending entry at the exit of a counted call. */
  function Inside(tid: nat, one: Calls): Pending
    requires one.Call? && one.target.inode.Some?
  {
    var p := Opened(tid, one.target);
    p.(event := p.event.(path := LastPath(one.target.file, one.inner, "")))
  }

  /** The call without what follows it. */
  function Alone(c: Calls): Calls
    requires c.Call?
  {
    Call(c.target, c.room, c.inner, c.ret, c.sent, Done)
  }

  lemma CallReports(tid: nat, c: Calls)
    requires c.Call?
    ensures Reported(tid, c) == Reported(tid, Alone(c)) + Reported(tid, c.rest)
    ensures Lost(c) == Lost(Alone(c)) + Lost(c.rest)
  {
    assert Reported(tid, Done) == [] && Lost(Done) == 0;
  }

  /** Counted are calls on a regular file by a task that is neither a kernel thread nor an I/O worker. */
  lemma CountedMeans(t: Target)
    ensures Counted(t) <==>
            && t.file > 0 && t.inode.Some? && (t.inode.value.mode >> 12) & 15 == 8
            && t.flags & 0x0020_0000 == 0 && t.flags & 0x10 == 0
  {
  }

  /** The upper half of a thread's number is its process. */
  lemma PidMeans(pid: nat, thread: nat)
    requires thread < 0x1_0000_0000
    ensures PidOf(pid * 0x1_0000_0000 + thread) == pid
  {
  }

  lemma EnteringRuns(tid: nat, th: Thread, t: Target, room: bool)
    requires th.pending.None?
    ensures Step(tid, th, Enter(t, room)) ==
            if Counted(t) && room then th.(pending := Some(Opened(tid, t)))
            else th.(lost := th.lost + if Counted(t) then 1 else 0)
  {
  }

  lemma Joined(a: seq<Event>, b: seq<Event>, c: seq<Event>)
    ensures a + b + c == a + (b + c)
  {
  }

  /** Whatever a thread left behind, its exit clears it for the next thread of that number. */
  lemma ExitClears(tid: nat, th: Thread, before: seq<Signal>, c: Calls)
    requires Height(c) < DEPTHS
    ensures var left := Run(tid, th, before);
            Run(tid, th, before + [ThreadExit] + Signals(c))
            == Thread(None, left.events + Reported(tid, c), left.lost + Lost(c))
  {
    RunJoined(tid, th, before + [ThreadExit], Signals(c));
    RunJoined(tid, th, before, [ThreadExit]);
    RunOne(tid, Run(tid, th, before), ThreadExit, []);
    assert [ThreadExit] + [] == [ThreadExit];
    CallsAreReported(tid, Run(tid, th, before).(pending := None), c);
  }

  /** Calls nested `n` deep, each returning `ret`. */
  function Nested(t: Target, n: nat, ret: int): Calls {
    if n == 0 then Done else Call(t, true, Nested(t, n - 1, ret), ret, true, Done)
  }

  lemma {:induction false} NestedHeight(t: Target, n: nat, ret: int)
    ensures Height(Nested(t, n, ret)) == n
    decreases n
  {
    if n > 0 {
      NestedHeight(t, n - 1, ret);
    }
  }

  /** Where the depth wraps to zero, the innermost exit sends the event of the outer call and removes its entry. */
  lemma {:induction false} WrapSendsEarly(tid: nat, th: Thread, t: Target, n: nat, ret: int)
    requires th.pending.Some? && 1 <= th.pending.value.depth && n > 0 && th.pending.value.depth + n == DEPTHS && ret > 0
    ensures Run(tid, th, Signals(Nested(t, n, ret)))
            == Thread(None, th.events + [th.pending.value.event.(bytes := ret)], th.lost)
    decreases n
  {
    var deeper := Step(tid, th, Enter(t, true));
    CallRuns(tid, th, t, true, Nested(t, n - 1, ret), ret, true, Done);
    if n > 1 {
      WrapSendsEarly(tid, deeper, t, n - 1, ret);
    } else {
      assert deeper.pending.value.depth == 0;
    }
  }

  /**
   The height bound is needed: calls nested exactly one deeper are reported with the bytes of the
   innermost one, which is right only when the outer call returned the same.
   */
  lemma DepthWrapReportsEarly(tid: nat, t: Target, n: nat, inner: nat, outer: nat)
    requires Counted(t) && n + 1 == DEPTHS && inner > 0 && outer > 0
    ensures var c := Call(t, true, Nested(t, n, inner), outer, true, Done);
            var end := Run(tid, Thread(None, [], 0), Signals(c));
            && Height(c) == DEPTHS
            && end == Thread(None, [Opened(tid, t).event.(bytes := inner)], 0)
            && Reported(tid, c) == [Opened(tid, t).event.(bytes := outer)]
            && (end == Thread(None, Reported(tid, c), Lost(c)) <==> inner == outer)
  {
    var c := Call(t, true, Nested(t, n, inner), outer, true, Done);
    var th := Thread(None, [], 0);
    NestedHeight(t, n, inner);
    EnteringRuns(tid, th, t, true);
    WrapSendsEarly(tid, Step(tid, th, Enter(t, true)), t, n, inner);
    CallRuns(tid, th, t, true, Nested(t, n, inner), outer, true, Done);
    NestedPath(t, t.file, n, inner, "");
    CallReports(tid, c);
    assert [] + [Opened(tid, t).event.(bytes := inner)] == [Opened(tid, t).event.(bytes := inner)];
  }

  lemma NestedPath(t: Target, file: nat, n: nat, ret: int, path: string)
    ensures LastPath(file, Nested(t, n, ret), path) == path
  {
  }

  /******* All threads *******/

  datatype Sent = Sent(tid: nat, event: Event)
  datatype Signalled = Signalled(tid: nat, signal: Signal)

  datatype Probes = Probes(pending: map<nat, Pending>, events: seq<Sent>, lost: nat)

  function PendingOf(p: map<nat, Pending>, tid: nat): Option<Pending> { if tid in p then Some(p[tid]) else None }

  function EventsOf(events: seq<Sent>, tid: nat): seq<Event> {
    if events == [] then []
    else if events[0].tid == tid then [events[0].event] + EventsOf(events[1..], tid)
    else EventsOf(events[1..], tid)
  }

  /** A signal of one thread: it works on that thread's entry and adds its events. */
  function StepAll(g: Probes, x: Signalled): Probes {
    var th := Step(x.tid, Thread(PendingOf(g.pending, x.tid), [], 0), x.signal);
    Probes(if th.pending.Some? then g.pending[x.tid := th.pending.value] else g.pending - {x.tid},
           g.events + Tagged(x.tid, th.events), g.lost + th.lost)
  }

  function Tagged(tid: nat, events: seq<Event>): seq<Sent> { seq(|events|, i requires 0 <= i < |events| => Sent(tid, events[i])) }

  function RunAll(g: Probes, trace: seq<Signalled>): Probes
    decreases |trace|
  {
    if trace == [] then g else RunAll(StepAll(g, trace[0]), trace[1..])
  }

  function SignalsOf(trace: seq<Signalled>, tid: nat): seq<Signal> {
    if trace == [] then []
    else if trace[0].tid == tid then [trace[0].signal] + SignalsOf(trace[1..], tid)
    else SignalsOf(trace[1..], tid)
  }

  lemma {:induction false} EventsOfJoined(a: seq<Sent>, b: seq<Sent>, tid: nat)
    ensures EventsOf(a + b, tid) == EventsOf(a, tid) + EventsOf(b, tid)
    decreases |a|
  {
    if a == [] {
      assert a + b == b;
    } else {
      assert (a + b)[0] == a[0] && (a + b)[1..] == a[1..] + b;
      EventsOfJoined(a[1..], b, tid);
    }
  }

  lemma {:induction false} EventsOfTagged(tid: nat, events: seq<Event>, other: nat)
    ensures EventsOf(Tagged(tid, events), other) == if tid == other then events else []
    decreases |events|
  {
    if events != [] {
      assert Tagged(tid, events)[1..] == Tagged(tid, events[1..]);
      EventsOfTagged(tid, events[1..], other);
    }
  }

  /** A step appends to what was sent before, and does not look at it. */
  lemma StepAppends(tid: nat, th: Thread, s: Signal)
    ensures var one := Step(tid, Thread(th.pending, [], 0), s);
            Step(tid, th, s) == Thread(one.pending, th.events + one.events, th.lost + one.lost)
  {
  }

  lemma {:induction false} ThreadsAreIndependent(g: Probes, trace: seq<Signalled>, tid: nat, lost: nat)
    ensures var th := Run(tid, Thread(PendingOf(g.pending, tid), EventsOf(g.events, tid), lost), SignalsOf(trace, tid));
            var end := RunAll(g, trace);
            PendingOf(end.pending, tid) == th.pending && EventsOf(end.events, tid) == th.events
    decreases |trace|
  {
    if trace != [] {
      var x := trace[0];
      var next := StepAll(g, x);
      var th := Thread(PendingOf(g.pending, tid), EventsOf(g.events, tid), lost);
      var one := Step(x.tid, Thread(PendingOf(g.pending, x.tid), [], 0), x.signal);
      EventsOfJoined(g.events, Tagged(x.tid, one.events), tid);
      EventsOfTagged(x.tid, one.events, tid);
      if x.tid == tid {
        StepAppends(tid, th, x.signal);
        RunOne(tid, th, x.signal, SignalsOf(trace[1..], tid));
        ThreadsAreIndependent(next, trace[1..], tid, lost + one.lost);
      } else {
        assert PendingOf(next.pending, tid) == th.pending;
        assert EventsOf(next.events, tid) == th.events;
        assert SignalsOf(trace, tid) == SignalsOf(trace[1..], tid);
        ThreadsAreIndependent(next, trace[1..], tid, lost);
      }
    }
  }

  /** In every interleaving, each thread's calls are reported as if it ran alone. */
  lemma EveryThreadIsReported(trace: seq<Signalled>, tid: nat, c: Calls)
    requires SignalsOf(trace, tid) == Signals(c) && Height(c) < DEPTHS
    ensures var end := RunAll(Probes(map[], [], 0), trace);
            tid !in end.pending && EventsOf(end.events, tid) == Reported(tid, c)
  {
    ThreadsAreIndependent(Probes(map[], [], 0), trace, tid, 0);
    CallsAreReported(tid, Thread(None, [], 0), c);
  }

  /** The probes, working on the maps in place. */
  class FileProbes {
    var pending: map<nat, Pending>
    var events: seq<Sent>
    var lost: nat

    ghost function State(): Probes
      reads this
    {
      Probes(pending, events, lost)
    }

    constructor ()
      ensures State() == Probes(map[], [], 0)
    {
      pending, events, lost := map[], [], 0;
    }

    method Begin(tid: nat, t: Target, room: bool)
      modifies this
      ensures State() == StepAll(old(State()), Signalled(tid, Enter(t, room)))
    {
      if tid in pending {
        pending := pending[tid := pending[tid].(depth := (pending[tid].depth + 1) % DEPTHS)];
      } else if Counted(t) {
        if !room {
          lost := lost + 1;
        } else {
          var i := t.inode.value;
          pending := pending[tid := Pending(Event(PidOf(tid), t.start, i.number, i.device, i.generation, t.write, 0, ""), t.file, 1)];
        }
      }
      assert tid !in pending ==> pending - {tid} == pending;
      assert events + [] == events;
    }

    method FilePath(tid: nat, file: nat, path: Option<string>)
      modifies this`pending
      ensures State() == StepAll(old(State()), Signalled(tid, Permission(file, path)))
    {
      assert tid !in pending ==> pending - {tid} == pending;
      assert tid in pending ==> pending[tid := pending[tid]] == pending;
      assert events + [] == events;
      if tid in pending && pending[tid].file == file && pending[tid].depth == 1 {
        pending := pending[tid := pending[tid].(event := pending[tid].event.(path := PathText(path)))];
      }
    }

    method Finish(tid: nat, ret: int, sent: bool)
      modifies this
      ensures State() == StepAll(old(State()), Signalled(tid, Leave(ret, sent)))
    {
      assert tid !in pending ==> pending - {tid} == pending;
      assert events + [] == events;
      if tid !in pending {
        return;
      }
      if pending[tid].depth > 1 {
        pending := pending[tid := pending[tid].(depth := pending[tid].depth - 1)];
        return;
      }
      if ret > 0 {
        if sent {
          events := events + [Sent(tid, pending[tid].event.(bytes := ret))];
        } else {
          lost := lost + 1;
        }
      }
      pending := pending - {tid};
    }

    method Exited(tid: nat)
      modifies this`pending
      ensures State() == StepAll(old(State()), Signalled(tid, ThreadExit))
    {
      assert events + [] == events;
      pending := pending - {tid};
    }
  }
}
