/** What becomes of a registration whose welcome failed, who is admitted, and how far the table fills. */
module HubRuns {
  import opened Basics
  import opened HostRegistry
  import opened Hub
  import opened HubProofs

  /******* Registrations left behind *******/

  /** A connection that will do nothing more and still holds its name is one whose welcome failed. */
  lemma OnlyAbandonedIsLeftBehind(s: State, c: nat)
    requires Good(s) && c in s.connections && !CanAdvance(s.connections[c].phase)
    requires Holds(s.hosts, s.connections[c].name, c)
    ensures s.connections[c].phase.Abandoned?
  {
    assert LinkOk(s.connections[c].name, s.hosts[s.connections[c].name], s.connections);
  }

  /** The action admits a connection under that name, or refuses one of another machine. */
  predicate Enters(s: State, a: Action, name: string) {
    a.Advance? && a.c in s.connections && s.connections[a.c].phase.Entering? && s.connections[a.c].name == name
  }

  predicate Reenters(s: State, a: Action, name: string, machine: string) {
    Enters(s, a, name) && s.connections[a.c].machine == machine
  }

  ghost predicate LeftBehind(s: State, c: nat) {
    c in s.connections && s.connections[c].phase.Abandoned? && Holds(s.hosts, s.connections[c].name, c)
  }

  /**
   A registration left behind is taken over by exactly one kind of action, the admission of the
   same machine under the same name.  Other machines are refused the name.
   */
  lemma LeftoverStep(s: State, a: Action, c: nat)
    requires Good(s) && Enabled(s, a) && LeftBehind(s, c)
    ensures var k, t := s.connections[c], Do(s, a);
            && c in t.connections && t.connections[c] == k
            && (Holds(t.hosts, k.name, c) <==> !Reenters(s, a, k.name, k.machine))
            && (Enters(s, a, k.name) && !Reenters(s, a, k.name, k.machine) ==> t.connections[a.c].phase.Rejected?)
  {
    var k := s.connections[c];
    assert LinkOk(k.name, s.hosts[k.name], s.connections);
    if a.Advance? {
      LeftoverThroughAdvance(s, a.c, a.now, c);
    }
  }

  lemma LeftoverThroughAdvance(s: State, e: nat, now: nat, c: nat)
    requires Good(s) && Enabled(s, Advance(e, now)) && LeftBehind(s, c)
    ensures var k, o := s.connections[c], s.connections[e]; var a := Advance(e, now);
            && e != c
            && (Holds(NextHosts(s, e, o, now), k.name, c) <==> !Reenters(s, a, k.name, k.machine))
            && (Enters(s, a, k.name) && !Reenters(s, a, k.name, k.machine) ==> NextPhase(s, e, o, now).Rejected?)
  {
    var k, o := s.connections[c], s.connections[e];
    assert LinkOk(k.name, s.hosts[k.name], s.connections);
    if o.phase.Serving? && o.name == k.name && IsCurrent(s.hosts, o.name, o.phase.id) {
      CurrentIsHeld(s, e);
    }
  }

  predicate NoneReenters(s: State, run: seq<Action>, name: string, machine: string)
    requires Possible(s, run)
    decreases |run|
  {
    run == [] || (!Reenters(s, run[0], name, machine) && NoneReenters(Do(s, run[0]), run[1..], name, machine))
  }

  /** In every continuation the registration lasts exactly until the same machine comes back under its name. */
  lemma {:induction false} LeftoverLasts(s: State, run: seq<Action>, c: nat)
    requires Good(s) && Possible(s, run) && LeftBehind(s, c)
    ensures var k := s.connections[c];
            Holds(After(s, run).hosts, k.name, c) <==> NoneReenters(s, run, k.name, k.machine)
    decreases |run|
  {
    if run != [] {
      var k, a := s.connections[c], run[0];
      LeftoverStep(s, a, c);
      StepStaysGood(s, a);
      if Reenters(s, a, k.name, k.machine) {
        NeverHeldAgain(Do(s, a), run[1..], c);
      } else {
        LeftoverLasts(Do(s, a), run[1..], c);
      }
    }
  }

  /******* Streams *******/

  /** The stream has seen every notification. */
  ghost predicate SeesAll(s: State, x: nat) { x in s.streams && s.streams[x].seen == s.generation }

  lemma SightStays(s: State, a: Action, x: nat)
    requires Enabled(s, a) && SeesAll(s, x) && Do(s, a).generation == s.generation
    ensures SeesAll(Do(s, a), x)
  {
    StreamsRemain(s, a);
    StreamsAfter(s, a, x);
  }

  lemma {:induction false} SightLasts(s: State, run: seq<Action>, x: nat)
    requires Possible(s, run) && SeesAll(s, x) && After(s, run).generation == s.generation
    ensures SeesAll(After(s, run), x)
    decreases |run|
  {
    if run != [] {
      GenerationOnlyGrows(Do(s, run[0]), run[1..]);
      GenerationGrows(s, run[0]);
      SightStays(s, run[0], x);
      SightLasts(Do(s, run[0]), run[1..], x);
    }
  }

  lemma {:induction false} GenerationOnlyGrows(s: State, run: seq<Action>)
    requires Possible(s, run)
    ensures s.generation <= After(s, run).generation
    decreases |run|
  {
    if run != [] {
      GenerationGrows(s, run[0]);
      GenerationOnlyGrows(Do(s, run[0]), run[1..]);
    }
  }

  /**
   A stream that marks, or wakes, has seen all notifications so far.  It then sleeps, once it
   waits, in every continuation in which no other one is sent.
   */
  lemma MarkedStreamSleeps(s: State, x: nat, now: nat, run: seq<Action>, later: nat)
    requires Enabled(s, Turn(x, now)) && (s.streams[x].stage.Marking? || s.streams[x].stage.Waiting?)
    requires Possible(Do(s, Turn(x, now)), run) && After(Do(s, Turn(x, now)), run).generation == s.generation
    ensures var t := After(Do(s, Turn(x, now)), run);
            SeesAll(t, x) && (t.streams[x].stage.Waiting? ==> !Enabled(t, Turn(x, later)))
  {
    assert SeesAll(Do(s, Turn(x, now)), x);
    SightLasts(Do(s, Turn(x, now)), run, x);
  }

  /** A waiting stream can go on exactly when a notification was sent that it has not seen. */
  lemma WakesExactlyWhen(s: State, x: nat, now: nat)
    requires Good(s) && x in s.streams && s.streams[x].stage.Waiting?
    ensures Enabled(s, Turn(x, now)) <==> s.streams[x].seen < s.generation
  {
    assert UpToDate(s, s.streams[x]);
  }

  /** When everybody has notified, a waiting stream that is out of date can go on. */
  lemma OutdatedStreamWakes(s: State, x: nat, now: nat)
    requires Good(s) && x in s.streams && s.streams[x].stage.Waiting? && !ChangeOwed(s)
    requires s.streams[x].online != OnlineOf(s.hosts) || s.streams[x].hosts != s.hosts
    ensures Enabled(s, Turn(x, now))
  {
    assert UpToDate(s, s.streams[x]);
  }

  /** The next three turns of a stream that wakes bring it the hosts that are online. */
  lemma WokenStreamReads(s: State, x: nat, now: nat)
    requires Good(s) && Enabled(s, Turn(x, now)) && s.streams[x].stage.Waiting?
    ensures var t := Do(s, Turn(x, now));
            && Enabled(t, Turn(x, now)) && Enabled(Do(t, Turn(x, now)), Turn(x, now))
            && var u := Do(Do(t, Turn(x, now)), Turn(x, now));
            u.hosts == s.hosts && u.streams[x].online == OnlineOf(s.hosts) && u.streams[x].seen == s.generation
  {
  }

  /******* Admission *******/

  lemma RunFirst(s: State, a: Action, run: seq<Action>)
    requires Enabled(s, a) && Possible(Do(s, a), run)
    ensures Possible(s, [a] + run) && After(s, [a] + run) == After(Do(s, a), run)
  {
    assert ([a] + run)[1..] == run;
  }

  /** A connection about to enter is admitted exactly under this condition, and refused otherwise. */
  lemma AdmissionExactlyWhen(s: State, c: nat, now: nat)
    requires Good(s) && Enabled(s, Advance(c, now)) && s.connections[c].phase.Entering?
    ensures var k := s.connections[c]; var p := Do(s, Advance(c, now)).connections[c].phase;
            && (p.Replacing? || p.Rejected?)
            && (p.Replacing? <==> if k.name in s.hosts then s.hosts[k.name].status.Offline? || s.hosts[k.name].machine == k.machine
                                  else |s.hosts| < 64)
  {
    var k := s.connections[c];
    AdmittedExactlyWhen(s.hosts, s.local, k.name, k.machine, k.phase.id, c, now);
  }

  lemma BackFrom(s: State, a: Action, t: State, run: seq<Action>) returns (longer: seq<Action>)
    requires Enabled(s, a) && Do(s, a) == t && Possible(t, run)
    ensures Possible(s, longer) && After(s, longer) == After(t, run)
  {
    longer := [a] + run;
    RunFirst(s, a, run);
  }

  lemma {:induction false} RunsJoin(s: State, a: seq<Action>, b: seq<Action>)
    requires Possible(s, a) && Possible(After(s, a), b)
    ensures Possible(s, a + b) && After(s, a + b) == After(After(s, a), b)
    decreases |a|
  {
    if a == [] {
      assert a + b == b;
    } else {
      assert (a + b)[0] == a[0] && (a + b)[1..] == a[1..] + b;
      RunsJoin(Do(s, a[0]), a[1..], b);
    }
  }

  /** The state with one more connection, at some point of its admission. */
  function Beside(s: State, c: nat, k: Connection, hosts: Table, links: nat, generation: nat): State {
    s.(connections := s.connections[c := k], hosts := hosts, links := links, generation := generation)
  }

  /** The state after another host has come online. */
  function Joined(s: State, c: nat, k: Connection, now: nat): State {
    Beside(s, c, k.(phase := Serving(s.links + 1)),
           s.hosts[k.name := Remote(k.machine, Online(now), Some(Current(s.links + 1, c)))], s.links + 1, s.generation + 1)
  }

  ghost predicate AllOnline(s: State) { forall n | n in s.hosts :: s.hosts[n].link.Some? && s.hosts[n].status.Online? }

  /** With fewer than 64 hosts, all online, another one can join. */
  lemma OneMoreJoins(s: State, c: nat, k: Connection, now: nat) returns (run: seq<Action>)
    requires AllOnline(s) && c !in s.connections && k.phase.Starting?
    requires ValidName(k.name) && k.name != s.local && k.name !in s.hosts && |s.hosts| < 64
    ensures Possible(s, run) && After(s, run) == Joined(s, c, k, now)
  {
    run := EnteredIsServed(s, c, k, now);
    run := StartedIsEntered(s, c, k, now, run);
    run := BackFrom(s, Connect(c, k.name, k.machine), Beside(s, c, k, s.hosts, s.links, s.generation), run);
  }

  lemma EnteredIsServed(s: State, c: nat, k: Connection, now: nat) returns (run: seq<Action>)
    ensures Possible(EnteredState(s, c, k, now), run) && After(EnteredState(s, c, k, now), run) == Joined(s, c, k, now)
  {
    var id := s.links + 1;
    var hosts := s.hosts[k.name := Remote(k.machine, Online(now), Some(Current(id, c)))];
    var end := Joined(s, c, k, now);
    var announcing := Beside(s, c, k.(phase := Announcing(id)), hosts, id, s.generation);
    assert After(end, []) == end && s.closed + {} == s.closed;
    run := BackFrom(announcing, Advance(c, now), end, []);
    run := BackFrom(EnteredState(s, c, k, now), Advance(c, now), announcing, run);
  }

  /** The state right after a new host entered the table. */
  function EnteredState(s: State, c: nat, k: Connection, now: nat): State {
    Beside(s, c, k.(phase := Replacing(s.links + 1, None)),
           s.hosts[k.name := Remote(k.machine, Online(now), Some(Current(s.links + 1, c)))], s.links + 1, s.generation)
  }

  lemma EnteringEnters(s: State, c: nat, k: Connection, now: nat)
    requires k.name !in s.hosts && |s.hosts| < 64
    ensures var t := Beside(s, c, k.(phase := Entering(s.links + 1)), s.hosts, s.links + 1, s.generation);
            Enabled(t, Advance(c, now)) && Do(t, Advance(c, now)) == EnteredState(s, c, k, now)
  {
    var id := s.links + 1;
    var t, o := Beside(s, c, k.(phase := Entering(id)), s.hosts, id, s.generation), k.(phase := Entering(id));
    NewIsAdmitted(t, c, o, now);
    Overwritten(s.connections, c, o, k.(phase := Replacing(id, None)));
    assert s.closed + {} == s.closed;
  }

  lemma NewIsAdmitted(t: State, c: nat, o: Connection, now: nat)
    requires o.phase.Entering? && o.name !in t.hosts && |t.hosts| < 64
    ensures NextPhase(t, c, o, now) == Replacing(o.phase.id, None)
    ensures NextHosts(t, c, o, now) == t.hosts[o.name := Remote(o.machine, Online(now), Some(Current(o.phase.id, c)))]
  {
  }

  lemma Overwritten(connections: Connections, c: nat, a: Connection, b: Connection)
    ensures connections[c := a][c := b] == connections[c := b]
  {
  }

  lemma StartedGetsNumber(s: State, c: nat, k: Connection, now: nat)
    requires AllOnline(s) && k.phase.Starting?
    ensures var t := Beside(s, c, k, s.hosts, s.links, s.generation);
            Enabled(t, Advance(c, now))
            && Do(t, Advance(c, now)) == Beside(s, c, k.(phase := Numbering), s.hosts, s.links, s.generation)
  {
    assert s.closed + {} == s.closed && Pruned(s.hosts, now) == s.hosts;
  }

  lemma NumberingNumbers(s: State, c: nat, k: Connection, now: nat)
    ensures var t := Beside(s, c, k.(phase := Numbering), s.hosts, s.links, s.generation);
            Enabled(t, Advance(c, now))
            && Do(t, Advance(c, now)) == Beside(s, c, k.(phase := Entering(s.links + 1)), s.hosts, s.links + 1, s.generation)
  {
    assert s.closed + {} == s.closed;
  }

  lemma StartedIsEntered(s: State, c: nat, k: Connection, now: nat, rest: seq<Action>) returns (run: seq<Action>)
    requires AllOnline(s) && k.phase.Starting? && k.name !in s.hosts && |s.hosts| < 64
    requires Possible(EnteredState(s, c, k, now), rest)
    ensures var u := Beside(s, c, k, s.hosts, s.links, s.generation);
            Possible(u, run) && After(u, run) == After(EnteredState(s, c, k, now), rest)
  {
    var entering := Beside(s, c, k.(phase := Entering(s.links + 1)), s.hosts, s.links + 1, s.generation);
    var numbering := Beside(s, c, k.(phase := Numbering), s.hosts, s.links, s.generation);
    EnteringEnters(s, c, k, now);
    NumberingNumbers(s, c, k, now);
    StartedGetsNumber(s, c, k, now);
    run := BackFrom(entering, Advance(c, now), EnteredState(s, c, k, now), rest);
    run := BackFrom(numbering, Advance(c, now), entering, run);
    run := BackFrom(Beside(s, c, k, s.hosts, s.links, s.generation), Advance(c, now), numbering, run);
  }

  ghost function FirstOf(names: seq<string>, n: nat): set<string>
    requires n <= |names|
  {
    if n == 0 then {} else FirstOf(names, n - 1) + {names[n - 1]}
  }

  lemma {:induction false} FirstOfAre(names: seq<string>, n: nat, name: string)
    requires n <= |names|
    ensures name in FirstOf(names, n) <==> exists i | 0 <= i < n :: names[i] == name
    decreases n
  {
    if n > 0 {
      FirstOfAre(names, n - 1, name);
    }
  }

  /** The first `n` names are online, each from its own connection, and nothing else is in the table. */
  ghost predicate OnlineUpTo(s: State, names: seq<string>, n: nat)
    requires n <= |names|
  {
    && AllOnline(s) && s.hosts.Keys == FirstOf(names, n) && |s.hosts| == n
    && forall c | c in s.connections :: c < n
  }

  /** Any 64 distinct valid names other than the hub's own can all be online at once. */
  lemma {:induction false} SixtyFourHostsJoin(local: string, names: seq<string>, machine: string, now: nat, n: nat) returns (run: seq<Action>)
    requires n <= |names| <= 64 && (forall i, j | 0 <= i < j < |names| :: names[i] != names[j])
    requires forall i | 0 <= i < |names| :: ValidName(names[i]) && names[i] != local
    ensures Possible(Initial(local), run) && After(Initial(local), run).local == local
    ensures OnlineUpTo(After(Initial(local), run), names, n)
    ensures forall i | 0 <= i < n :: names[i] in After(Initial(local), run).hosts
    decreases n
  {
    if n == 0 {
      run := [];
      assert After(Initial(local), run) == Initial(local);
    } else {
      var front := SixtyFourHostsJoin(local, names, machine, now, n - 1);
      var s, k := After(Initial(local), front), Connection(names[n - 1], machine, Starting);
      NextIsNew(s, names, n);
      var more := OneMoreJoins(s, n - 1, k, now);
      RunsJoin(Initial(local), front, more);
      JoinedUpTo(s, names, n, k, now);
      run := front + more;
    }
    NamesAreOnline(After(Initial(local), run), names, n);
  }

  lemma NamesAreOnline(s: State, names: seq<string>, n: nat)
    requires n <= |names| && OnlineUpTo(s, names, n)
    ensures forall i | 0 <= i < n :: names[i] in s.hosts
  {
    forall i | 0 <= i < n
      ensures names[i] in s.hosts.Keys
    {
      FirstOfAre(names, n, names[i]);
    }
  }

  lemma NextIsNew(s: State, names: seq<string>, n: nat)
    requires 0 < n <= |names| && OnlineUpTo(s, names, n - 1) && forall i, j | 0 <= i < j < |names| :: names[i] != names[j]
    ensures names[n - 1] !in s.hosts && n - 1 !in s.connections
  {
    FirstOfAre(names, n - 1, names[n - 1]);
  }

  lemma JoinedUpTo(s: State, names: seq<string>, n: nat, k: Connection, now: nat)
    requires 0 < n <= |names| && OnlineUpTo(s, names, n - 1) && k.name == names[n - 1] && k.name !in s.hosts
    ensures OnlineUpTo(Joined(s, n - 1, k, now), names, n)
  {
    var t := Joined(s, n - 1, k, now);
    assert t.hosts.Keys == s.hosts.Keys + {k.name};
    assert |t.hosts| == |s.hosts| + 1;
  }

  /** Any agent that is admitted and whose welcome fails leaves such a registration. */
  lemma LeftoverIsReached(local: string, name: string, machine: string, now: nat) returns (run: seq<Action>)
    requires ValidName(name) && name != local
    ensures Possible(Initial(local), run) && LeftBehind(After(Initial(local), run), 0)
    ensures After(Initial(local), run).connections[0].name == name
  {
    var s, k := Initial(local), Connection(name, machine, Starting);
    var joined := OneMoreJoins(s, 0, k, now);
    var t := Joined(s, 0, k, now);
    assert After(Do(t, Abandon(0)), []) == Do(t, Abandon(0));
    RunFirst(t, Abandon(0), []);
    assert [Abandon(0)] + [] == [Abandon(0)];
    RunsJoin(s, joined, [Abandon(0)]);
    run := joined + [Abandon(0)];
  }
}
