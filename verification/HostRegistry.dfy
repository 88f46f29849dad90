/**
 The hub's table of remote hosts (src/http_server/hosts/registry.rs).  Each function is one
 section under the lock; the class runs the sections as the methods of the source do.
 */
module HostRegistry {
  import opened Basics

  const HOST_LIMIT: nat := 64
  const OFFLINE_RETENTION_MS: nat := 10 * 60 * 1000

  datatype Status = Online(since: nat) | Offline(since: nat)

  /** The current link of a host: its id and the connection it belongs to. */
  datatype Current = Current(id: nat, connection: nat)

  datatype Remote = Remote(machine: string, status: Status, link: Option<Current>)

  type Table = map<string, Remote>

  /** Short URL-safe labels other than the name of the merged view. */
  predicate ValidName(name: string) {
    1 <= |name| <= 63 && name != "all"
    && forall c | c in name :: 'a' <= c <= 'z' || 'A' <= c <= 'Z' || '0' <= c <= '9' || c in "._-"
  }

  predicate Kept(r: Remote, now: nat) {
    r.status.Online? || now < r.status.since + OFFLINE_RETENTION_MS
  }

  /** `prune`, under the lock. */
  function Pruned(t: Table, now: nat): Table {
    map name | name in t && Kept(t[name], now) :: t[name]
  }

  datatype Admission = Refused | Admitted(table: Table, previous: Option<nat>)

  /** `admit`, under the lock: refused while the name is online from elsewhere, or the table is full. */
  function Admit(t: Table, name: string, machine: string, id: nat, connection: nat, now: nat): Admission {
    if name in t && t[name].link.Some? && t[name].machine != machine then Refused
    else if name !in t && |t| >= HOST_LIMIT then Refused
    else
      Admitted(t[name := Remote(machine, Online(now), Some(Current(id, connection)))],
               if name in t && t[name].link.Some? then Some(t[name].link.value.connection) else None)
  }

  predicate IsCurrent(t: Table, name: string, id: nat) {
    name in t && t[name].link.Some? && t[name].link.value.id == id
  }

  /** `disconnected`, under the lock: nothing happens for a link that was replaced. */
  function Disconnect(t: Table, name: string, id: nat, now: nat): Table {
    if IsCurrent(t, name, id) then t[name := t[name].(status := Offline(now), link := None)] else t
  }

  /** The online hosts and their connections. */
  function OnlineOf(t: Table): map<string, nat> {
    map name | name in t && t[name].link.Some? :: t[name].link.value.connection
  }

  /** What holds of the table between any two sections. */
  ghost predicate ValidTable(t: Table, local: string) {
    && |t| <= HOST_LIMIT && local !in t
    && (forall n | n in t :: ValidName(n) && (t[n].status.Online? <==> t[n].link.Some?))
  }

  lemma PrunedSize(t: Table, now: nat)
    ensures |Pruned(t, now)| <= |t|
    ensures |Pruned(t, now)| == |t| <==> Pruned(t, now) == t
  {
    var p := Pruned(t, now);
    assert p.Keys <= t.Keys;
    SubsetSize(p.Keys, t.Keys);
    if |p| == |t| {
      assert p.Keys == t.Keys;
    }
  }

  lemma PruneKeepsValid(t: Table, local: string, now: nat)
    requires ValidTable(t, local)
    ensures ValidTable(Pruned(t, now), local) && OnlineOf(Pruned(t, now)) == OnlineOf(t)
  {
    PrunedSize(t, now);
  }

  /** A prune keeps exactly the hosts that are online or went offline less than ten minutes ago. */
  lemma PruneKeepsExactly(t: Table, local: string, now: nat, name: string)
    requires ValidTable(t, local)
    ensures name in Pruned(t, now) <==> name in t && (t[name].link.Some? || now < t[name].status.since + 600_000)
    ensures name in Pruned(t, now) ==> Pruned(t, now)[name] == t[name]
  {
  }

  /** A host is let in exactly when its name is free, its own, or new with fewer than 64 hosts in the table. */
  lemma AdmittedExactlyWhen(t: Table, local: string, name: string, machine: string, id: nat, connection: nat, now: nat)
    requires ValidTable(t, local)
    ensures var a := Admit(t, name, machine, id, connection, now);
            && (a.Admitted? <==> if name in t then t[name].status.Offline? || t[name].machine == machine else |t| < 64)
            && (a.Admitted? ==> a.table == t[name := Remote(machine, Online(now), Some(Current(id, connection)))])
  {
  }

  /** A host that disconnects is shown offline since then, and dropped by the first prune ten minutes later. */
  lemma DisconnectedHostLasts(t: Table, local: string, name: string, id: nat, now: nat, later: nat)
    requires ValidTable(t, local) && IsCurrent(t, name, id) && now <= later
    ensures var d := Disconnect(t, name, id, now);
            && name in d && d[name] == Remote(t[name].machine, Offline(now), None)
            && (forall n | n != name :: n in d <==> n in t) && (forall n | n in t && n != name :: d[n] == t[n])
            && (name in Pruned(d, later) <==> later < now + 600_000)
  {
  }

  /** Names of 1 to 63 letters, digits, dots, underscores and dashes, as far as their length goes. */
  lemma NameLengths(n: nat)
    ensures ValidName(seq(n, _ => 'a')) <==> 1 <= n <= 63
  {
    var name := seq(n, _ => 'a');
    assert forall c | c in name :: c == 'a';
    if n == 3 {
      assert name[1] == 'a' && "all"[1] == 'l';
    }
  }

  lemma NameExamples()
    ensures ValidName("db-1.example_B") && !ValidName("all") && !ValidName("") && !ValidName("a b") && !ValidName("a/b")
  {
    assert "a b"[1] in "a b" && "a/b"[1] in "a/b";
  }

  lemma AdmitKeepsValid(t: Table, local: string, name: string, machine: string, id: nat, connection: nat, now: nat)
    requires ValidTable(t, local) && ValidName(name) && name != local
    ensures var a := Admit(t, name, machine, id, connection, now);
            a.Admitted? ==> ValidTable(a.table, local)
  {
    var a := Admit(t, name, machine, id, connection, now);
    if a.Admitted? {
      assert a.table.Keys == t.Keys + {name};
    }
  }

  lemma DisconnectKeepsValid(t: Table, local: string, name: string, id: nat, now: nat)
    requires ValidTable(t, local)
    ensures ValidTable(Disconnect(t, name, id, now), local)
  {
    var d := Disconnect(t, name, id, now);
    assert d.Keys == t.Keys;
  }

  /** The registry object; `closed` are the connections whose links were closed. */
  class Registry {
    const local: string
    var hosts: Table
    var links: nat
    var generation: nat
    var closed: set<nat>

    ghost predicate Valid()
      reads this
    {
      ValidTable(hosts, local)
    }

    constructor (local: string)
      ensures Valid() && this.local == local && hosts == map[] && links == 0 && generation == 0 && closed == {}
    {
      this.local := local;
      hosts, links, generation, closed := map[], 0, 0, {};
    }

    /** Removes hosts offline for too long, and tells viewers when it removed any. */
    method Prune(now: nat)
      requires Valid()
      modifies this`hosts, this`generation
      ensures Valid() && hosts == Pruned(old(hosts), now) && OnlineOf(hosts) == OnlineOf(old(hosts))
      ensures generation == old(generation) + if hosts == old(hosts) then 0 else 1
    {
      var before := |hosts|;
      PrunedSize(hosts, now);
      PruneKeepsValid(hosts, local, now);
      hosts := map name | name in hosts && Kept(hosts[name], now) :: hosts[name];
      if |hosts| != before {
        generation := generation + 1;
      }
    }

    /** `admit` without interference; the link id it returns is new in every outcome. */
    method AdmitHost(name: string, machine: string, connection: nat, now: nat) returns (r: Option<nat>)
      requires Valid()
      modifies this
      ensures Valid() && links >= old(links) && generation >= old(generation)
      ensures !ValidName(name) || name == local ==> r.None? && hosts == old(hosts) && links == old(links)
      ensures ValidName(name) && name != local ==>
                var a := Admit(Pruned(old(hosts), now), name, machine, links, connection, now);
                && links == old(links) + 1
                && (a.Refused? <==> r.None?)
                && (var t := Pruned(old(hosts), now);
                    r.Some? <==> if name in t then t[name].status.Offline? || t[name].machine == machine else |t| < 64)
                && (r.Some? ==> r.value == links && hosts == a.table && generation > old(generation)
                                && closed == old(closed) + if a.previous.Some? then {a.previous.value} else {})
                && (r.None? ==> hosts == Pruned(old(hosts), now) && closed == old(closed))
    {
      if !ValidName(name) || name == local {
        return None;
      }
      Prune(now);
      links := links + 1;
      var ok := Enter(name, machine, links, connection, now);
      r := if ok then Some(links) else None;
    }

    /** The section of `admit` under the lock, and the close and the notification after it. */
    method Enter(name: string, machine: string, id: nat, connection: nat, now: nat) returns (ok: bool)
      requires Valid() && ValidName(name) && name != local
      modifies this`hosts, this`closed, this`generation
      ensures Valid()
      ensures var a := Admit(old(hosts), name, machine, id, connection, now);
              && (ok <==> a.Admitted?)
              && (ok <==> if name in old(hosts) then old(hosts)[name].status.Offline? || old(hosts)[name].machine == machine
                          else |old(hosts)| < 64)
              && (ok ==> hosts == a.table && generation == old(generation) + 1
                         && closed == old(closed) + if a.previous.Some? then {a.previous.value} else {})
              && (!ok ==> hosts == old(hosts) && generation == old(generation) && closed == old(closed))
    {
      if name in hosts {
        if hosts[name].link.Some? && hosts[name].machine != machine {
          return false;
        }
      } else if |hosts| >= HOST_LIMIT {
        return false;
      }
      AdmitKeepsValid(hosts, local, name, machine, id, connection, now);
      var previous := if name in hosts then hosts[name].link else None;
      hosts := hosts[name := Remote(machine, Online(now), Some(Current(id, connection)))];
      if previous.Some? {
        closed := closed + {previous.value.connection};
      }
      generation := generation + 1;
      ok := true;
    }

    /** Takes the host offline if `id` is still its link. */
    method Disconnected(name: string, id: nat, now: nat)
      requires Valid()
      modifies this`hosts, this`closed, this`generation
      ensures Valid() && hosts == Disconnect(old(hosts), name, id, now)
      ensures !IsCurrent(old(hosts), name, id) ==> closed == old(closed) && generation == old(generation)
      ensures IsCurrent(old(hosts), name, id) ==>
                generation == old(generation) + 1 && closed == old(closed) + {old(hosts)[name].link.value.connection}
    {
      if name !in hosts {
        return;
      }
      var host := hosts[name];
      if host.link.None? || host.link.value.id != id {
        return;
      }
      DisconnectKeepsValid(hosts, local, name, id, now);
      closed := closed + {host.link.value.connection};
      hosts := hosts[name := host.(status := Offline(now), link := None)];
      generation := generation + 1;
    }
  }
}
