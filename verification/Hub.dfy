/**
 The hub as a whole: agent connections (`serve_agent`, src/http_server/hosts/listener.rs),
 callers of the host list, and merged event streams (src/http_server/api/merged.rs) working
 on one registry.  An action is what one of them does between two points where others may
 run: a section under the lock, an atomic counter, a close, or a change notification.
 */
module Hub {
  import opened Basics
  import opened HostRegistry

  /** Where a connection is in `serve_agent`.  `id` is its link id once it has one. */
  datatype Phase =
    | Starting                                      // about to prune
    | PruneNotifying                                // pruned a host, about to notify
    | Numbering                                     // about to take a link id
    | Entering(id: nat)                             // about to enter the table
    | Replacing(id: nat, previous: Option<nat>)     // entered, about to close the link it replaced
    | Announcing(id: nat)                           // about to notify
    | Serving(id: nat)                              // relaying messages
    | Abandoned(id: nat)                            // its welcome could not be written
    | Retiring(id: nat)                             // marked offline, about to notify
    | Closing(id: nat)                              // about to close its own link
    | Ended(id: nat)
    | Rejected

  datatype Connection = Connection(name: string, machine: string, phase: Phase)

  type Connections = map<nat, Connection>

  /** Where a merged stream is in its loop. */
  datatype Stage = Marking | Reading | Pruning | Notifying | Listing | Waiting

  /**
   `seen` is the generation it marked, `online` and `hosts` what it read last.  `forwarded` is
   the connection each host is forwarded from, `spawned` counts the forwarders started for
   each connection.
   */
  datatype Stream = Stream(stage: Stage, seen: nat, online: map<string, nat>, hosts: Table,
                           forwarded: map<string, nat>, spawned: multiset<nat>)

  /** `notifiers` are the callers of the host list that pruned a host and are about to notify. */
  datatype State = State(local: string, hosts: Table, links: nat, generation: nat, closed: set<nat>,
                         connections: Connections, notifiers: set<nat>, streams: map<nat, Stream>)

  datatype Action =
    | Connect(c: nat, name: string, machine: string)
    | Advance(c: nat, now: nat)      // the next thing the connection does
    | Abandon(c: nat)                // the welcome could not be written
    | List(v: nat, now: nat)         // a caller of the host list prunes
    | ListNotify(v: nat)
    | Subscribe(x: nat)
    | Turn(x: nat, now: nat)         // the next thing the stream does

  function Initial(local: string): State { State(local, map[], 0, 0, {}, map[], {}, map[]) }

  function IdOf(p: Phase): Option<nat> {
    match p
    case Starting => None
    case PruneNotifying => None
    case Numbering => None
    case Rejected => None
    case Entering(id) => Some(id)
    case Replacing(id, _) => Some(id)
    case Announcing(id) => Some(id)
    case Serving(id) => Some(id)
    case Abandoned(id) => Some(id)
    case Retiring(id) => Some(id)
    case Closing(id) => Some(id)
    case Ended(id) => Some(id)
  }

  predicate Enabled(s: State, a: Action) {
    match a
    case Connect(c, _, _) => c !in s.connections
    case Advance(c, _) => c in s.connections && CanAdvance(s.connections[c].phase)
    case Abandon(c) => c in s.connections && s.connections[c].phase.Serving?
    case List(v, _) => v !in s.notifiers
    case ListNotify(v) => v in s.notifiers
    case Subscribe(x) => x !in s.streams
    case Turn(x, _) => x in s.streams && (s.streams[x].stage.Waiting? ==> s.streams[x].seen != s.generation)
  }

  predicate CanAdvance(p: Phase) { !p.Rejected? && !p.Abandoned? && !p.Ended? }

  function Do(s: State, a: Action): State
    requires Enabled(s, a)
  {
    match a
    case Connect(c, name, machine) =>
      var phase := if ValidName(name) && name != s.local then Starting else Rejected;
      s.(connections := s.connections[c := Connection(name, machine, phase)])
    case Advance(c, now) => AdvanceConnection(s, c, now)
    case Abandon(c) => s.(connections := Moved(s.connections, c, Abandoned(s.connections[c].phase.id)))
    case List(v, now) =>
      var t := Pruned(s.hosts, now);
      s.(hosts := t, notifiers := if |t| != |s.hosts| then s.notifiers + {v} else s.notifiers)
    case ListNotify(v) => Notify(s).(notifiers := s.notifiers - {v})
    case Subscribe(x) => s.(streams := s.streams[x := Stream(Marking, s.generation, map[], map[], map[], multiset{})])
    case Turn(x, now) => TurnStream(s, x, now)
  }

  function Moved(connections: Connections, c: nat, p: Phase): Connections
    requires c in connections
  {
    connections[c := connections[c].(phase := p)]
  }

  function Notify(s: State): State { s.(generation := s.generation + 1) }

  /** The next thing a connection does, to each part of the state. */
  function AdvanceConnection(s: State, c: nat, now: nat): State
    requires c in s.connections
  {
    var k := s.connections[c];
    s.(connections := Moved(s.connections, c, NextPhase(s, c, k, now)),
       hosts := NextHosts(s, c, k, now),
       links := if k.phase.Numbering? then s.links + 1 else s.links,
       generation := if Notifies(k.phase) then s.generation + 1 else s.generation,
       closed := s.closed + NextClosed(s, c, k))
  }

  function Admission(s: State, c: nat, k: Connection, now: nat): HostRegistry.Admission
    requires k.phase.Entering?
  {
    Admit(s.hosts, k.name, k.machine, k.phase.id, c, now)
  }

  function NextPhase(s: State, c: nat, k: Connection, now: nat): Phase {
    match k.phase
    case Starting => if |Pruned(s.hosts, now)| != |s.hosts| then PruneNotifying else Numbering
    case PruneNotifying => Numbering
    case Numbering => Entering(s.links + 1)
    case Entering(id) =>
      (match Admission(s, c, k, now)
       case Refused => Rejected
       case Admitted(_, previous) => Replacing(id, previous))
    case Replacing(id, _) => Announcing(id)
    case Announcing(id) => Serving(id)
    case Serving(id) => if IsCurrent(s.hosts, k.name, id) then Retiring(id) else Closing(id)
    case Retiring(id) => Closing(id)
    case Closing(id) => Ended(id)
    case _ => k.phase
  }

  function NextHosts(s: State, c: nat, k: Connection, now: nat): Table {
    match k.phase
    case Starting => Pruned(s.hosts, now)
    case Entering(_) =>
      (match Admission(s, c, k, now)
       case Refused => s.hosts
       case Admitted(table, _) => table)
    case Serving(id) => Disconnect(s.hosts, k.name, id, now)
    case _ => s.hosts
  }

  predicate Notifies(p: Phase) { p.PruneNotifying? || p.Announcing? || p.Retiring? }

  /** The links closed: the replaced one, the one taken from the table, its own. */
  function NextClosed(s: State, c: nat, k: Connection): set<nat> {
    match k.phase
    case Replacing(_, previous) => if previous.Some? then {previous.value} else {}
    case Serving(id) => if IsCurrent(s.hosts, k.name, id) then {s.hosts[k.name].link.value.connection} else {}
    case Closing(_) => {c}
    case _ => {}
  }

  /** The connections of `online` that are not the ones already forwarded. */
  function Unforwarded(online: map<string, nat>, forwarded: map<string, nat>): set<nat> {
    set name | name in online && !(name in forwarded && forwarded[name] == online[name]) :: online[name]
  }

  /** The loop over the online hosts. */
  function Forward(x: Stream, online: map<string, nat>): Stream {
    x.(stage := Pruning, online := online, forwarded := x.forwarded + online,
       spawned := x.spawned + multiset(Unforwarded(online, x.forwarded)))
  }

  /** The stream after its next turn in state `s`. */
  function NextStream(s: State, v: Stream, now: nat): Stream {
    match v.stage
    case Marking => v.(stage := Reading, seen := s.generation)
    case Reading => Forward(v, OnlineOf(s.hosts))
    case Pruning => v.(stage := if |Pruned(s.hosts, now)| != |s.hosts| then Notifying else Listing)
    case Notifying => v.(stage := Listing)
    case Listing => v.(stage := Waiting, hosts := s.hosts)
    case Waiting => v.(stage := Marking, seen := s.generation)
  }

  function TurnStream(s: State, x: nat, now: nat): State
    requires x in s.streams
  {
    var v := s.streams[x];
    s.(streams := s.streams[x := NextStream(s, v, now)],
       hosts := if v.stage.Pruning? then Pruned(s.hosts, now) else s.hosts,
       generation := if v.stage.Notifying? then s.generation + 1 else s.generation)
  }

  /******* Runs *******/

  predicate Possible(s: State, run: seq<Action>)
    decreases |run|
  {
    run == [] || (Enabled(s, run[0]) && Possible(Do(s, run[0]), run[1..]))
  }

  function After(s: State, run: seq<Action>): State
    requires Possible(s, run)
    decreases |run|
  {
    if run == [] then s else After(Do(s, run[0]), run[1..])
  }
}
