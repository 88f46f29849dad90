/** What holds of the hub in every interleaving. */
module HubProofs {
  import opened Basics
  import opened HostRegistry
  import opened Hub

  /******* The table *******/

  ghost predicate TableOk(s: State) {
    ValidTable(s.hosts, s.local) && NamesOk(s.connections, s.local)
  }

  ghost predicate NamesOk(connections: Connections, local: string) {
    forall c | c in connections && !connections[c].phase.Rejected? ::
      ValidName(connections[c].name) && connections[c].name != local
  }

  lemma TableStays(s: State, a: Action)
    requires TableOk(s) && Enabled(s, a)
    ensures TableOk(Do(s, a))
  {
    match a
    case Advance(c, now) => TableStaysOnAdvance(s, c, now);
    case List(_, now) => PruneKeepsValid(s.hosts, s.local, now);
    case Turn(_, now) => PruneKeepsValid(s.hosts, s.local, now);
    case _ =>
  }

  lemma TableStaysOnAdvance(s: State, c: nat, now: nat)
    requires TableOk(s) && Enabled(s, Advance(c, now))
    ensures TableOk(AdvanceConnection(s, c, now))
  {
    var k := s.connections[c];
    NamesStayOnMove(s.connections, s.local, c, NextPhase(s, c, k, now));
    if k.phase.Starting? {
      PruneKeepsValid(s.hosts, s.local, now);
    } else if k.phase.Entering? {
      AdmitKeepsValid(s.hosts, s.local, k.name, k.machine, k.phase.id, c, now);
    } else if k.phase.Serving? {
      DisconnectKeepsValid(s.hosts, s.local, k.name, k.phase.id, now);
    }
  }

  lemma NamesStayOnMove(connections: Connections, local: string, c: nat, p: Phase)
    requires c in connections && !connections[c].phase.Rejected? && NamesOk(connections, local)
    ensures NamesOk(Moved(connections, c, p), local)
  {
  }

  /** A name that is online stays with its machine, whatever happens next. */
  lemma OnlineNameKeepsMachine(s: State, a: Action, name: string)
    requires TableOk(s) && Enabled(s, a)
    requires name in s.hosts && s.hosts[name].link.Some?
    ensures name in Do(s, a).hosts && Do(s, a).hosts[name].machine == s.hosts[name].machine
  {
    if a.Advance? {
      assert Do(s, a).hosts == NextHosts(s, a.c, s.connections[a.c], a.now);
    }
  }

  /******* Links *******/

  /** Whether the connection has entered the table. */
  predicate WasAdmitted(p: Phase) { IdOf(p).Some? && !p.Entering? }

  /** Whether the connection has entered the table and not left it. */
  predicate MayBeCurrent(p: Phase) { p.Replacing? || p.Announcing? || p.Serving? || p.Abandoned? }

  /** The name's link in the table is that of connection `c`. */
  predicate Holds(hosts: Table, name: string, c: nat) {
    name in hosts && hosts[name].link.Some? && hosts[name].link.value.connection == c
  }

  /** Every link in the table is that of a connection which entered under that name. */
  ghost predicate Linked(hosts: Table, connections: Connections) {
    forall n | n in hosts && hosts[n].link.Some? :: LinkOk(n, hosts[n], connections)
  }

  ghost predicate LinkOk(n: string, r: Remote, connections: Connections)
    requires r.link.Some?
  {
    var c := r.link.value.connection;
    && c in connections && connections[c].name == n && connections[c].machine == r.machine
    && MayBeCurrent(connections[c].phase) && IdOf(connections[c].phase) == Some(r.link.value.id)
  }

  /** Link ids are never reused. */
  ghost predicate Numbered(connections: Connections, links: nat) {
    && (forall c | c in connections && IdOf(connections[c].phase).Some? ::
          1 <= IdOf(connections[c].phase).value <= links)
    && (forall c, d | c in connections && d in connections && c != d && IdOf(connections[c].phase).Some? ::
          IdOf(connections[c].phase) != IdOf(connections[d].phase))
  }

  ghost predicate LinksOk(s: State) {
    Linked(s.hosts, s.connections) && Numbered(s.connections, s.links)
  }

  lemma NumberedAfterMove(connections: Connections, links: nat, c: nat, p: Phase)
    requires c in connections && Numbered(connections, links)
    requires IdOf(p) == IdOf(connections[c].phase) || IdOf(p) == None
    ensures Numbered(Moved(connections, c, p), links)
  {
  }

  lemma NumberedAfterNumbering(connections: Connections, links: nat, c: nat)
    requires c in connections && Numbered(connections, links)
    ensures Numbered(Moved(connections, c, Entering(links + 1)), links + 1)
  {
  }

  /** A connection may change phase when it keeps its link, or when the table does not refer to it. */
  lemma LinkedAfterMove(hosts: Table, connections: Connections, c: nat, p: Phase)
    requires c in connections && Linked(hosts, connections)
    requires (MayBeCurrent(p) && IdOf(p) == IdOf(connections[c].phase)) || !Holds(hosts, connections[c].name, c)
    ensures Linked(hosts, Moved(connections, c, p))
  {
    forall n | n in hosts && hosts[n].link.Some?
      ensures LinkOk(n, hosts[n], Moved(connections, c, p))
    {
      assert LinkOk(n, hosts[n], connections);
    }
  }

  /** A connection that has not entered the table, or has left it, is not in it. */
  lemma OutsideIsNotHeld(hosts: Table, connections: Connections, c: nat)
    requires Linked(hosts, connections) && c in connections && !MayBeCurrent(connections[c].phase)
    ensures !Holds(hosts, connections[c].name, c)
  {
  }

  lemma LinksStay(s: State, a: Action)
    requires LinksOk(s) && Enabled(s, a)
    ensures LinksOk(Do(s, a))
  {
    match a
    case Connect(c, _, _) => LinksStayOnConnect(s.hosts, s.connections, s.links, c, Do(s, a).connections[c]);
    case Advance(c, now) =>
      NumbersStayOnAdvance(s, c, now);
      LinksStayOnAdvance(s, c, now);
    case Abandon(c) =>
      NumberedAfterMove(s.connections, s.links, c, Abandoned(s.connections[c].phase.id));
      LinkedAfterMove(s.hosts, s.connections, c, Abandoned(s.connections[c].phase.id));
    case List(_, now) => LinksStayOnPrune(s.hosts, s.connections, now);
    case Turn(_, now) => LinksStayOnPrune(s.hosts, s.connections, now);
    case _ =>
  }

  lemma LinksStayOnPrune(hosts: Table, connections: Connections, now: nat)
    requires Linked(hosts, connections)
    ensures Linked(Pruned(hosts, now), connections)
  {
  }

  lemma LinksStayOnConnect(hosts: Table, connections: Connections, links: nat, c: nat, k: Connection)
    requires Linked(hosts, connections) && Numbered(connections, links) && c !in connections && IdOf(k.phase) == None
    ensures Linked(hosts, connections[c := k]) && Numbered(connections[c := k], links)
  {
    forall n | n in hosts && hosts[n].link.Some?
      ensures LinkOk(n, hosts[n], connections[c := k])
    {
      assert LinkOk(n, hosts[n], connections);
    }
  }

  lemma NumbersStayOnAdvance(s: State, c: nat, now: nat)
    requires Numbered(s.connections, s.links) && Enabled(s, Advance(c, now))
    ensures Numbered(AdvanceConnection(s, c, now).connections, AdvanceConnection(s, c, now).links)
  {
    if s.connections[c].phase.Numbering? {
      NumberedAfterNumbering(s.connections, s.links, c);
    } else {
      NumberedAfterMove(s.connections, s.links, c, NextPhase(s, c, s.connections[c], now));
    }
  }

  lemma LinksStayOnAdvance(s: State, c: nat, now: nat)
    requires Linked(s.hosts, s.connections) && Enabled(s, Advance(c, now))
    ensures Linked(AdvanceConnection(s, c, now).hosts, AdvanceConnection(s, c, now).connections)
  {
    var k := s.connections[c];
    var p := NextPhase(s, c, k, now);
    if k.phase.Entering? {
      OutsideIsNotHeld(s.hosts, s.connections, c);
      LinkedAfterMove(s.hosts, s.connections, c, p);
      LinkedAfterEnter(s, c, k, now);
    } else if k.phase.Serving? {
      LinkedAfterLeave(s, c, k, now);
    } else {
      LinksStayOnPrune(s.hosts, s.connections, now);
      if !MayBeCurrent(k.phase) {
        OutsideIsNotHeld(NextHosts(s, c, k, now), s.connections, c);
      }
      LinkedAfterMove(NextHosts(s, c, k, now), s.connections, c, p);
    }
  }

  lemma LinkedAfterEnter(s: State, c: nat, k: Connection, now: nat)
    requires c in s.connections && k == s.connections[c] && k.phase.Entering?
    requires Linked(s.hosts, Moved(s.connections, c, NextPhase(s, c, k, now)))
    ensures Linked(NextHosts(s, c, k, now), Moved(s.connections, c, NextPhase(s, c, k, now)))
  {
  }

  lemma LinkedAfterLeave(s: State, c: nat, k: Connection, now: nat)
    requires c in s.connections && k == s.connections[c] && k.phase.Serving? && Linked(s.hosts, s.connections)
    ensures Linked(NextHosts(s, c, k, now), Moved(s.connections, c, NextPhase(s, c, k, now)))
  {
    var hosts := NextHosts(s, c, k, now);
    assert Linked(hosts, s.connections);
    assert !Holds(hosts, k.name, c);
    LinkedAfterMove(hosts, s.connections, c, NextPhase(s, c, k, now));
  }

  /******* Closed links *******/

  /** Some admission has replaced the link of `c` and is about to close it. */
  ghost predicate BeingReplaced(connections: Connections, c: nat) {
    exists d :: d in connections && Replaces(connections[d].phase, c)
  }

  predicate Replaces(p: Phase, c: nat) { p.Replacing? && p.previous == Some(c) }

  ghost predicate ClosedOrKept(s: State, c: nat)
    requires c in s.connections
  {
    Holds(s.hosts, s.connections[c].name, c) || c in s.closed || BeingReplaced(s.connections, c)
  }

  /** Every admitted link that is not current is closed, or about to be closed by a running admission. */
  ghost predicate ClosedOk(s: State) {
    forall c | c in s.connections && WasAdmitted(s.connections[c].phase) :: ClosedOrKept(s, c)
  }

  lemma ClosedStays(s: State, a: Action)
    requires TableOk(s) && LinksOk(s) && ClosedOk(s) && Enabled(s, a)
    ensures ClosedOk(Do(s, a))
  {
    var t := Do(s, a);
    forall c | c in t.connections && WasAdmitted(t.connections[c].phase)
      ensures ClosedOrKept(t, c)
    {
      if c in s.connections && WasAdmitted(s.connections[c].phase) {
        assert ClosedOrKept(s, c);
        StillClosedOrKept(s, a, c);
      } else {
        EnteringHolds(s, a, c);
      }
    }
  }

  /** A connection that was just admitted holds its name. */
  lemma EnteringHolds(s: State, a: Action, c: nat)
    requires Enabled(s, a) && c in Do(s, a).connections && WasAdmitted(Do(s, a).connections[c].phase)
    requires c !in s.connections || !WasAdmitted(s.connections[c].phase)
    ensures Holds(Do(s, a).hosts, Do(s, a).connections[c].name, c)
  {
    if a.Advance? {
      assert Do(s, a).connections == Moved(s.connections, a.c, NextPhase(s, a.c, s.connections[a.c], a.now));
    }
  }

  lemma StillClosedOrKept(s: State, a: Action, c: nat)
    requires TableOk(s) && Enabled(s, a) && c in s.connections && ClosedOrKept(s, c)
    ensures c in Do(s, a).connections && ClosedOrKept(Do(s, a), c)
  {
    match a
    case Advance(e, now) => KeptThroughAdvance(s, e, now, c);
    case Connect(e, _, _) => BeingReplacedAfterConnect(s.connections, e, Do(s, a).connections[e], c);
    case Abandon(e) => BeingReplacedAfterMove(s.connections, e, Abandoned(s.connections[e].phase.id), c);
    case _ =>
  }

  lemma BeingReplacedAfterConnect(connections: Connections, e: nat, k: Connection, c: nat)
    requires e !in connections
    ensures BeingReplaced(connections, c) ==> BeingReplaced(connections[e := k], c)
  {
    if d :| d in connections && Replaces(connections[d].phase, c) {
      assert Replaces(connections[e := k][d].phase, c);
    }
  }

  lemma BeingReplacedAfterMove(connections: Connections, e: nat, p: Phase, c: nat)
    requires e in connections && (Replaces(connections[e].phase, c) ==> Replaces(p, c))
    ensures BeingReplaced(connections, c) ==> BeingReplaced(Moved(connections, e, p), c)
  {
    if d :| d in connections && Replaces(connections[d].phase, c) {
      assert Replaces(Moved(connections, e, p)[d].phase, c);
    }
  }

  lemma KeptThroughAdvance(s: State, e: nat, now: nat, c: nat)
    requires TableOk(s) && Enabled(s, Advance(e, now)) && c in s.connections && ClosedOrKept(s, c)
    ensures ClosedOrKept(AdvanceConnection(s, e, now), c)
  {
    var k := s.connections[e];
    var p := NextPhase(s, e, k, now);
    if Holds(s.hosts, s.connections[c].name, c) {
      HoldsThroughAdvance(s, e, k, now, s.connections[c].name, c);
      if Replaces(p, c) {
        assert Replaces(Moved(s.connections, e, p)[e].phase, c);
      }
    } else if Replaces(k.phase, c) {
      assert c in NextClosed(s, e, k);
    } else {
      BeingReplacedAfterMove(s.connections, e, p, c);
    }
  }

  /** A name changes hands only to a connection that then closes the old link. */
  lemma HoldsThroughAdvance(s: State, e: nat, k: Connection, now: nat, name: string, c: nat)
    requires ValidTable(s.hosts, s.local) && Holds(s.hosts, name, c)
    ensures Holds(NextHosts(s, e, k, now), name, c) || c in NextClosed(s, e, k) || Replaces(NextPhase(s, e, k, now), c)
  {
  }

  /******* Change notifications *******/

  /** The connection changed the online hosts and has not notified the viewers yet. */
  predicate Owes(p: Phase) { p.Replacing? || p.Announcing? || p.Retiring? }

  ghost predicate OnlineChangeOwed(s: State) {
    exists c :: c in s.connections && Owes(s.connections[c].phase)
  }

  /** Someone changed the host list and has not notified the viewers yet. */
  ghost predicate ChangeOwed(s: State) {
    || (exists c :: c in s.connections && (Owes(s.connections[c].phase) || s.connections[c].phase.PruneNotifying?))
    || s.notifiers != {}
    || (exists y :: y in s.streams && s.streams[y].stage.Notifying?)
  }

  predicate HasRead(x: Stream) { !x.stage.Marking? && !x.stage.Reading? }

  /**
   A stream whose view of the online hosts or of the host list is out of date has an unseen
   notification, or one is about to be sent.
   */
  ghost predicate UpdatesOk(s: State) {
    forall x | x in s.streams :: UpToDate(s, s.streams[x])
  }

  ghost predicate UpToDate(s: State, v: Stream) {
    && v.seen <= s.generation
    && (HasRead(v) && v.online != OnlineOf(s.hosts) ==> v.seen < s.generation || OnlineChangeOwed(s))
    && (v.stage.Waiting? && v.hosts != s.hosts ==> v.seen < s.generation || ChangeOwed(s))
  }

  /** An action changes at most one stream. */
  lemma StreamsAfter(s: State, a: Action, x: nat)
    requires Enabled(s, a) && x in Do(s, a).streams
    ensures var t := Do(s, a);
            if a.Subscribe? && a.x == x then t.streams[x] == Stream(Marking, s.generation, map[], map[], map[], multiset{})
            else x in s.streams
                 && t.streams[x] == if a.Turn? && a.x == x then NextStream(s, s.streams[x], a.now) else s.streams[x]
  {
    if a.Advance? {
      assert Do(s, a).streams == s.streams;
    }
  }

  lemma StreamsRemain(s: State, a: Action)
    requires Enabled(s, a)
    ensures s.streams.Keys <= Do(s, a).streams.Keys
  {
    if a.Advance? {
      assert Do(s, a).streams == s.streams;
    }
  }

  /** An owing connection goes on owing until it notifies. */
  lemma ConnectionOwes(s: State, a: Action, c: nat)
    requires Enabled(s, a) && Do(s, a).generation == s.generation && c in s.connections
    ensures var t := Do(s, a);
            && c in t.connections
            && (Owes(s.connections[c].phase) ==> Owes(t.connections[c].phase))
            && (s.connections[c].phase.PruneNotifying? ==> t.connections[c].phase.PruneNotifying?)
  {
  }

  /** A notification that is owed stays owed until it is sent. */
  lemma OwedStays(s: State, a: Action)
    requires Enabled(s, a) && Do(s, a).generation == s.generation
    ensures OnlineChangeOwed(s) ==> OnlineChangeOwed(Do(s, a))
    ensures ChangeOwed(s) ==> ChangeOwed(Do(s, a))
  {
    if c :| c in s.connections && Owes(s.connections[c].phase) {
      ConnectionOwes(s, a, c);
    } else if c :| c in s.connections && s.connections[c].phase.PruneNotifying? {
      ConnectionOwes(s, a, c);
    } else if y :| y in s.streams && s.streams[y].stage.Notifying? {
      StreamsRemain(s, a);
      StreamsAfter(s, a, y);
      assert Do(s, a).streams[y].stage.Notifying?;
    } else if s.notifiers != {} {
      NotifiersRemain(s, a);
    }
  }

  lemma NotifiersRemain(s: State, a: Action)
    requires Enabled(s, a) && Do(s, a).generation == s.generation
    ensures s.notifiers <= Do(s, a).notifiers
  {
    if a.Advance? {
      assert Do(s, a).notifiers == s.notifiers;
    }
  }

  /** Whoever changes the table owes a notification afterwards. */
  lemma ChangeIsOwed(s: State, a: Action)
    requires TableOk(s) && Enabled(s, a)
    ensures OnlineOf(Do(s, a).hosts) != OnlineOf(s.hosts) ==> OnlineChangeOwed(Do(s, a))
    ensures Do(s, a).hosts != s.hosts ==> ChangeOwed(Do(s, a))
  {
    var t := Do(s, a);
    if a.Advance? && t.hosts != s.hosts {
      AdvanceIsOwed(s, a.c, a.now);
    } else if a.List? {
      PruneKeepsValid(s.hosts, s.local, a.now);
      PrunedSize(s.hosts, a.now);
      assert t.hosts != s.hosts ==> a.v in t.notifiers;
    } else if a.Turn? {
      PruneKeepsValid(s.hosts, s.local, a.now);
      PrunedSize(s.hosts, a.now);
      assert t.hosts != s.hosts ==> t.streams[a.x].stage.Notifying?;
    }
  }

  lemma AdvanceIsOwed(s: State, c: nat, now: nat)
    requires TableOk(s) && Enabled(s, Advance(c, now)) && NextHosts(s, c, s.connections[c], now) != s.hosts
    ensures var t := AdvanceConnection(s, c, now);
            && (OnlineOf(t.hosts) != OnlineOf(s.hosts) ==> OnlineChangeOwed(t))
            && ChangeOwed(t)
  {
    var t := AdvanceConnection(s, c, now);
    ChangerOwes(s, c, s.connections[c], now);
    assert t.connections[c].phase == NextPhase(s, c, s.connections[c], now);
  }

  /** A connection that changed the table is then about to notify. */
  lemma ChangerOwes(s: State, c: nat, k: Connection, now: nat)
    requires ValidTable(s.hosts, s.local) && NextHosts(s, c, k, now) != s.hosts
    ensures Owes(NextPhase(s, c, k, now))
            || (NextPhase(s, c, k, now).PruneNotifying? && OnlineOf(NextHosts(s, c, k, now)) == OnlineOf(s.hosts))
  {
    PruneKeepsValid(s.hosts, s.local, now);
    PrunedSize(s.hosts, now);
  }

  lemma GenerationGrows(s: State, a: Action)
    requires Enabled(s, a)
    ensures s.generation <= Do(s, a).generation
  {
  }

  lemma UpdatesStay(s: State, a: Action)
    requires TableOk(s) && UpdatesOk(s) && Enabled(s, a)
    ensures UpdatesOk(Do(s, a))
  {
    var t := Do(s, a);
    ChangeIsOwed(s, a);
    if t.generation == s.generation {
      OwedStays(s, a);
    }
    forall x | x in t.streams
      ensures UpToDate(t, t.streams[x])
    {
      StreamsAfter(s, a, x);
      GenerationGrows(s, a);
      if x in s.streams {
        assert UpToDate(s, s.streams[x]);
      }
    }
  }

  /******* Forwarders *******/

  /** A stream starts at most one forwarder for a connection, and keeps its current ones recorded. */
  ghost predicate ForwardersOk(s: State) {
    forall x | x in s.streams :: StreamOk(s.hosts, s.connections, s.streams[x])
  }

  ghost predicate StreamOk(hosts: Table, connections: Connections, v: Stream) {
    forall c: nat | c in v.spawned :: ForwarderOk(hosts, connections, v, c)
  }

  ghost predicate ForwarderOk(hosts: Table, connections: Connections, v: Stream, c: nat) {
    && v.spawned[c] == 1
    && c in connections && WasAdmitted(connections[c].phase)
    && (Holds(hosts, connections[c].name, c) ==> connections[c].name in v.forwarded && v.forwarded[connections[c].name] == c)
  }

  /** A connection that has entered the table stays past its entry and does not enter again. */
  lemma EnteredOnce(s: State, a: Action, c: nat)
    requires Enabled(s, a) && c in s.connections && WasAdmitted(s.connections[c].phase)
    ensures var t := Do(s, a);
            && c in t.connections && t.connections[c].name == s.connections[c].name && WasAdmitted(t.connections[c].phase)
            && (Holds(t.hosts, t.connections[c].name, c) ==> Holds(s.hosts, s.connections[c].name, c))
  {
    if a.Advance? {
      EnteredOnceOnAdvance(s, a.c, a.now, c);
    }
  }

  lemma EnteredOnceOnAdvance(s: State, e: nat, now: nat, c: nat)
    requires Enabled(s, Advance(e, now)) && c in s.connections && WasAdmitted(s.connections[c].phase)
    ensures var t := AdvanceConnection(s, e, now);
            && c in t.connections && t.connections[c].name == s.connections[c].name && WasAdmitted(t.connections[c].phase)
            && (Holds(t.hosts, t.connections[c].name, c) ==> Holds(s.hosts, s.connections[c].name, c))
  {
    HoldsOnlyByEntering(s, e, s.connections[e], now, s.connections[c].name, c);
  }

  lemma HoldsOnlyByEntering(s: State, e: nat, k: Connection, now: nat, name: string, c: nat)
    ensures Holds(NextHosts(s, e, k, now), name, c) ==> Holds(s.hosts, name, c) || (e == c && k.phase.Entering?)
  {
  }

  /** A link that was replaced, or has left, never holds its name again. */
  lemma {:induction false} NeverHeldAgain(s: State, run: seq<Action>, c: nat)
    requires Possible(s, run) && c in s.connections && WasAdmitted(s.connections[c].phase)
    requires !Holds(s.hosts, s.connections[c].name, c)
    ensures var t := After(s, run);
            && c in t.connections && WasAdmitted(t.connections[c].phase)
            && t.connections[c].name == s.connections[c].name && !Holds(t.hosts, t.connections[c].name, c)
    decreases |run|
  {
    if run != [] {
      EnteredOnce(s, run[0], c);
      NeverHeldAgain(Do(s, run[0]), run[1..], c);
    }
  }

  /** Only the connection that holds a name has the id of its link. */
  lemma CurrentIsHeld(s: State, c: nat)
    requires LinksOk(s) && c in s.connections && IdOf(s.connections[c].phase).Some?
    requires IsCurrent(s.hosts, s.connections[c].name, IdOf(s.connections[c].phase).value)
    ensures Holds(s.hosts, s.connections[c].name, c)
  {
    var name := s.connections[c].name;
    assert LinkOk(name, s.hosts[name], s.connections);
  }

  lemma StreamStaysOk(s: State, a: Action, v: Stream)
    requires Enabled(s, a) && StreamOk(s.hosts, s.connections, v)
    ensures StreamOk(Do(s, a).hosts, Do(s, a).connections, v)
  {
    forall c: nat | c in v.spawned
      ensures ForwarderOk(Do(s, a).hosts, Do(s, a).connections, v, c)
    {
      assert ForwarderOk(s.hosts, s.connections, v, c);
      EnteredOnce(s, a, c);
    }
  }

  lemma ForwardersStay(s: State, a: Action)
    requires LinksOk(s) && ForwardersOk(s) && Enabled(s, a)
    ensures ForwardersOk(Do(s, a))
  {
    var t := Do(s, a);
    forall x | x in t.streams
      ensures StreamOk(t.hosts, t.connections, t.streams[x])
    {
      StreamsAfter(s, a, x);
      if x in s.streams {
        if a.Turn? && a.x == x {
          NextStreamOk(s, s.streams[x], a.now);
        }
        StreamStaysOk(s, a, t.streams[x]);
      }
    }
  }

  lemma ForwardKeepsOne(s: State, v: Stream)
    requires LinksOk(s) && StreamOk(s.hosts, s.connections, v)
    ensures StreamOk(s.hosts, s.connections, Forward(v, OnlineOf(s.hosts)))
  {
    var online := OnlineOf(s.hosts);
    var w := Forward(v, online);
    forall c: nat | c in w.spawned
      ensures ForwarderOk(s.hosts, s.connections, w, c)
    {
      if c in Unforwarded(online, v.forwarded) {
        var n :| n in online && online[n] == c && !(n in v.forwarded && v.forwarded[n] == c);
        assert LinkOk(n, s.hosts[n], s.connections);
        assert !ForwarderOk(s.hosts, s.connections, v, c);
        assert c !in v.spawned;
      } else {
        assert ForwarderOk(s.hosts, s.connections, v, c);
      }
    }
  }

  lemma NextStreamOk(s: State, v: Stream, now: nat)
    requires LinksOk(s) && StreamOk(s.hosts, s.connections, v)
    ensures StreamOk(s.hosts, s.connections, NextStream(s, v, now))
  {
    if v.stage.Reading? {
      ForwardKeepsOne(s, v);
    } else {
      var w := NextStream(s, v, now);
      forall c: nat | c in w.spawned
        ensures ForwarderOk(s.hosts, s.connections, w, c)
      {
        assert ForwarderOk(s.hosts, s.connections, v, c);
      }
    }
  }

  /** After a stream reads the online hosts, each of them is forwarded from its current connection. */
  lemma EveryOnlineHostIsForwarded(s: State, x: nat, now: nat, name: string)
    requires LinksOk(s) && ForwardersOk(s) && Enabled(s, Turn(x, now)) && s.streams[x].stage.Reading?
    requires name in s.hosts && s.hosts[name].link.Some?
    requires Forwarding(s.streams[x])
    ensures var v := Do(s, Turn(x, now)).streams[x]; var c := s.hosts[name].link.value.connection;
            v.forwarded[name] == c && v.spawned[c] == 1
  {
    var online := OnlineOf(s.hosts);
    var v := s.streams[x];
    var c := s.hosts[name].link.value.connection;
    ForwardKeepsOne(s, v);
    assert name in online && online[name] == c;
    if name in v.forwarded && v.forwarded[name] == c {
      assert c in v.spawned;
    } else {
      assert c in Unforwarded(online, v.forwarded);
    }
  }

  /** What is recorded as forwarded has a forwarder. */
  ghost predicate Forwarding(v: Stream) {
    forall n | n in v.forwarded :: v.forwarded[n] in v.spawned
  }

  ghost predicate AllForwarding(s: State) {
    forall x | x in s.streams :: Forwarding(s.streams[x])
  }

  lemma ForwardingStays(s: State, a: Action)
    requires AllForwarding(s) && Enabled(s, a)
    ensures AllForwarding(Do(s, a))
  {
    var t := Do(s, a);
    forall x | x in t.streams
      ensures Forwarding(t.streams[x])
    {
      StreamsAfter(s, a, x);
      if a.Turn? && a.x == x {
        NextForwards(s, s.streams[x], a.now);
      }
    }
  }

  lemma NextForwards(s: State, v: Stream, now: nat)
    requires Forwarding(v)
    ensures Forwarding(NextStream(s, v, now))
  {
    if v.stage.Reading? {
      ForwardRecords(v, OnlineOf(s.hosts));
    } else {
      assert NextStream(s, v, now).forwarded == v.forwarded && NextStream(s, v, now).spawned == v.spawned;
    }
  }

  lemma ForwardRecords(v: Stream, online: map<string, nat>)
    requires Forwarding(v)
    ensures Forwarding(Forward(v, online))
  {
    var w := Forward(v, online);
    forall n | n in w.forwarded
      ensures w.forwarded[n] in w.spawned
    {
      assert n in online && !(n in v.forwarded && v.forwarded[n] == online[n]) ==> online[n] in Unforwarded(online, v.forwarded);
    }
  }

  /******* Every run *******/

  /** A connection that has ended has closed its link. */
  ghost predicate EndedOk(s: State) {
    forall c | c in s.connections && s.connections[c].phase.Ended? :: c in s.closed
  }

  lemma EndedStays(s: State, a: Action)
    requires EndedOk(s) && Enabled(s, a)
    ensures EndedOk(Do(s, a))
  {
    if a.Advance? {
      assert Do(s, a).closed == s.closed + NextClosed(s, a.c, s.connections[a.c]);
    }
  }

  ghost predicate Good(s: State) {
    TableOk(s) && LinksOk(s) && ClosedOk(s) && EndedOk(s) && UpdatesOk(s) && ForwardersOk(s) && AllForwarding(s)
  }

  lemma StepStaysGood(s: State, a: Action)
    requires Good(s) && Enabled(s, a)
    ensures Good(Do(s, a))
  {
    TableStays(s, a);
    LinksStay(s, a);
    ClosedStays(s, a);
    EndedStays(s, a);
    UpdatesStay(s, a);
    ForwardersStay(s, a);
    ForwardingStays(s, a);
  }

  lemma {:induction false} RunStaysGood(s: State, run: seq<Action>)
    requires Good(s) && Possible(s, run)
    ensures Good(After(s, run))
    decreases |run|
  {
    if run != [] {
      StepStaysGood(s, run[0]);
      RunStaysGood(Do(s, run[0]), run[1..]);
    }
  }

  /** In every interleaving of connections, viewers and streams, everything above holds. */
  lemma EveryRunIsGood(local: string, run: seq<Action>)
    requires Possible(Initial(local), run)
    ensures Good(After(Initial(local), run))
  {
    RunStaysGood(Initial(local), run);
  }

  /**
   Once a connection's link was replaced, nothing it still does in any continuation touches the
   hosts or a viewer's state.  It closes at most its own link and the one it had itself replaced,
   and notifies only if it had not finished announcing or retiring; its disconnect does nothing.
   */
  lemma StaleDisconnectIsHarmless(s: State, run: seq<Action>, c: nat, now: nat)
    requires Good(s) && Possible(s, run) && Enabled(After(s, run), Advance(c, now))
    requires c in s.connections && WasAdmitted(s.connections[c].phase) && !Holds(s.hosts, s.connections[c].name, c)
    ensures var t := After(s, run); var u := Do(t, Advance(c, now)); var p := t.connections[c].phase;
            && u.hosts == t.hosts && u.streams == t.streams && u.links == t.links
            && (u.generation == t.generation <==> !(p.Announcing? || p.Retiring?))
            && u.closed <= t.closed + {c} + (if p.Replacing? && p.previous.Some? then {p.previous.value} else {})
            && (p.Serving? ==> u == t.(connections := Moved(t.connections, c, Closing(p.id))))
  {
    RunStaysGood(s, run);
    NeverHeldAgain(s, run, c);
    StaleStep(After(s, run), c, now);
  }

  lemma StaleStep(t: State, c: nat, now: nat)
    requires LinksOk(t) && Enabled(t, Advance(c, now)) && WasAdmitted(t.connections[c].phase)
    requires !Holds(t.hosts, t.connections[c].name, c)
    ensures var u := Do(t, Advance(c, now)); var p := t.connections[c].phase;
            && u.hosts == t.hosts && u.streams == t.streams && u.links == t.links
            && (u.generation == t.generation <==> !(p.Announcing? || p.Retiring?))
            && u.closed <= t.closed + {c} + (if p.Replacing? && p.previous.Some? then {p.previous.value} else {})
            && (p.Serving? ==> u == t.(connections := Moved(t.connections, c, Closing(p.id))))
  {
    var k := t.connections[c];
    if IsCurrent(t.hosts, k.name, IdOf(k.phase).value) {
      CurrentIsHeld(t, c);
    }
    assert k.phase.Serving? ==> t.closed + {} == t.closed;
  }
}
