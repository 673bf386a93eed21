/** The provisioning service (services/ContestService.kt): the port cursor,
    the allocator that scans for a free port, and the one create path that
    allocates, starts the container and, only when it started, registers the
    proxy route and stores the team. */
module Contest {
  import opened Records
  import opened Text
  import opened Config
  import opened Docker

  const LOCALHOST: string := "127.0.0.1"
  const MAX_PORT: int := 65535

  /** `x++` on a Kotlin Int: two's-complement increment. */
  function Inc32(x: Int32): (r: Int32)
    ensures (r - x - 1) % 0x1_0000_0000 == 0
    ensures x < INT_MAX ==> r > x
  {
    if x == INT_MAX then INT_MIN else x + 1
  }

  /** A port `InetSocketAddress` accepts. */
  predicate IsSocketPort(port: int) {
    0 <= port <= MAX_PORT
  }

  /** The registry key of a server name: the proxy compares names without
      regard to letter case. */
  function ServerKey(name: string): string {
    Lower(name)
  }

  /** The proxy refuses `info` when a server of the same name, up to letter
      case, is registered with different information. */
  predicate NameClash(servers: map<string, ServerInfo>, info: ServerInfo) {
    ServerKey(info.name) in servers && servers[ServerKey(info.name)] != info
  }

  /** Once a route is registered, the same name, in any letter case, is
      refused for another port, while the very same route is accepted
      again. */
  lemma RegisteredNameRefusesOtherPort(servers: map<string, ServerInfo>, name: string, other: string,
                                       port: Int32, otherPort: Int32)
    requires Lower(other) == Lower(name) && port != otherPort
    ensures var after := servers[ServerKey(name) := ServerInfo(name, LOCALHOST, port)];
            && NameClash(after, ServerInfo(other, LOCALHOST, otherPort))
            && !NameClash(after, ServerInfo(name, LOCALHOST, port))
  {
  }

  /** The proxy's server registry (`ProxyServer.registerServer`): servers
      keyed by their lower-case name. It holds the servers of the proxy's
      own configuration and every route registered since it started. */
  class Proxy {
    var servers: map<string, ServerInfo>

    constructor (servers: map<string, ServerInfo>)
      ensures this.servers == servers
    {
      this.servers := servers;
    }

    /** `registerServer`: a name not yet registered is added; the same
        information again is accepted and changes nothing; a name that is
        registered with other information is refused with an
        IllegalArgumentException. */
    method RegisterServer(info: ServerInfo) returns (refused: bool)
      modifies this
      ensures refused <==> NameClash(old(servers), info)
      ensures refused ==> servers == old(servers)
      ensures !refused ==> servers == old(servers)[ServerKey(info.name) := info]
    {
      var key := ServerKey(info.name);
      if key in servers {
        if servers[key] != info {
          return true;
        }
        return false;
      }
      servers := servers[key := info];
      return false;
    }
  }

  /** How registering a route ends: registered, the IllegalArgumentException
      of `InetSocketAddress` for a port outside 0..65535, or the
      IllegalArgumentException of the proxy for a name it already holds with
      other information. */
  datatype RouteResult = Routed | AddressRefused | NameRefused

  /** What a call of createAndRegisterServer ends in: a returned Boolean, the
      IllegalStateException of the allocator, or one of the two
      IllegalArgumentExceptions of the route; it catches none of the
      exceptions. */
  datatype CreateOutcome = Returned(success: bool) | NoPortAvailable | InvalidAddress | NameTaken

  /** One call of createAndRegisterServer, with its arguments and outcome. */
  datatype CreateCall = CreateCall(teamId: string, teamName: string, members: seq<string>, outcome: CreateOutcome)

  class ContestService {
    /** The `nextAvailablePort` cursor: the last port handed out. */
    var nextAvailablePort: Int32
    /** Every call of CreateAndRegisterServer so far, in order. */
    ghost var calls: seq<CreateCall>
    const store: ConfigManager
    const docker: DockerManager
    const journal: Journal
    const proxy: Proxy

    ghost predicate Valid()
      reads this, store
    {
      store.Valid() && store.journal == journal && docker.journal == journal
    }

    /** The cursor starts at the stored `port-start` (default 30000). */
    constructor (store: ConfigManager, docker: DockerManager, proxy: Proxy)
      requires store.Valid() && docker.journal == store.journal
      ensures Valid() && this.store == store && this.docker == docker && this.proxy == proxy
      ensures nextAvailablePort == store.StartPort() && calls == []
    {
      this.store := store;
      this.docker := docker;
      this.journal := store.journal;
      this.proxy := proxy;
      nextAvailablePort := store.StartPort();
      calls := [];
    }

    /** `getNextAvailablePort`: advances the cursor by one, then returns the
        least port from there up to 65535 that no stored team records, making
        it the cursor and the stored `port-start`. `None` is the
        IllegalStateException thrown when every such port is taken; the
        cursor has then still moved by one. */
    method NextAvailablePort() returns (r: Option<Int32>)
      requires Valid()
      modifies this, store, journal
      ensures Valid() && calls == old(calls)
      ensures store.teams == old(store.teams) && store.order == old(store.order)
      ensures r.None? ==> forall q :: Inc32(old(nextAvailablePort)) <= q <= MAX_PORT ==> PortTaken(old(store.teams), q)
      ensures r.None? ==> && nextAvailablePort == Inc32(old(nextAvailablePort))
                          && store.ktor == old(store.ktor)
                          && journal.events == old(journal.events)
      ensures r.Some? ==> Inc32(old(nextAvailablePort)) <= r.value <= MAX_PORT
      ensures r.Some? ==> !PortTaken(old(store.teams), r.value)
      ensures r.Some? ==> forall q :: Inc32(old(nextAvailablePort)) <= q < r.value ==> PortTaken(old(store.teams), q)
      ensures r.Some? && old(nextAvailablePort) < INT_MAX ==> old(nextAvailablePort) < r.value
      ensures r.Some? ==> nextAvailablePort == r.value
      ensures r.Some? && old(store.ktor).None? ==> store.ktor == None && journal.events == old(journal.events)
      ensures r.Some? && old(store.ktor).Some? ==>
                && store.ktor == Some(old(store.ktor).value.(portStart := Some(r.value)))
                && journal.events == old(journal.events) + [SavedConfig(store.ktor.value)]
                && store.StartPort() == r.value
    {
      nextAvailablePort := Inc32(nextAvailablePort);
      var port: int := nextAvailablePort;
      while port <= MAX_PORT
        invariant Valid() && calls == old(calls)
        invariant nextAvailablePort <= port
        invariant nextAvailablePort == Inc32(old(nextAvailablePort))
        invariant forall q :: nextAvailablePort <= q < port ==> PortTaken(old(store.teams), q)
        invariant unchanged(store) && unchanged(journal)
        decreases MAX_PORT + 1 - port
      {
        var used := store.IsPortExist(port);
        if !used {
          nextAvailablePort := port;
          store.SetStartPort(nextAvailablePort);
          return Some(nextAvailablePort);
        }
        port := port + 1;
      }
      return None;
    }

    /** `registerServerToVelocity`: registers the route `name -> 127.0.0.1:port`
        with the proxy. The socket address is built first, so a port outside
        0..65535 is refused before the proxy is asked; a refused route
        leaves the registry and the journal as they were. */
    method RegisterServerToVelocity(name: string, port: Int32) returns (r: RouteResult)
      modifies journal, proxy
      ensures r == AddressRefused <==> !IsSocketPort(port)
      ensures r == NameRefused <==> IsSocketPort(port) && NameClash(old(proxy.servers), ServerInfo(name, LOCALHOST, port))
      ensures r != Routed ==> unchanged(journal) && proxy.servers == old(proxy.servers)
      ensures r == Routed ==>
                && journal.events == old(journal.events) + [RegisteredServer(ServerInfo(name, LOCALHOST, port))]
                && proxy.servers == old(proxy.servers)[ServerKey(name) := ServerInfo(name, LOCALHOST, port)]
    {
      if !IsSocketPort(port) {
        return AddressRefused;
      }
      var info := ServerInfo(name, LOCALHOST, port);
      var refused := proxy.RegisterServer(info);
      if refused {
        return NameRefused;
      }
      journal.Record(RegisteredServer(info));
      return Routed;
    }

    /** The commit of a successful start: the route, then the team record. When
        the route is refused the exception leaves before the team is stored. */
    method Commit(teamId: string, teamName: string, port: Int32, members: seq<string>) returns (route: RouteResult)
      requires Valid()
      modifies store, journal, proxy
      ensures Valid()
      ensures store.ktor == old(store.ktor)
      ensures route == AddressRefused <==> !IsSocketPort(port)
      ensures route == NameRefused <==>
                IsSocketPort(port) && NameClash(old(proxy.servers), ServerInfo(teamId, LOCALHOST, port))
      ensures route != Routed ==> unchanged(store, journal) && proxy.servers == old(proxy.servers)
      ensures route == Routed ==>
                && proxy.servers == old(proxy.servers)[ServerKey(teamId) := ServerInfo(teamId, LOCALHOST, port)]
                && store.teams == Some(Inserted(old(store.teams), teamId, TeamData(Some(teamName), Some(port), Some(members))))
                && store.order == (if old(store.teams).Some? && teamId in old(store.teams).value then old(store.order)
                                   else old(store.order) + [teamId])
                && journal.events == old(journal.events) +
                     [RegisteredServer(ServerInfo(teamId, LOCALHOST, port)), SavedData(store.teams.value, store.order)]
                && store.TeamName(teamId) == Some(teamName)
                && store.TeamPort(teamId) == Some(port)
                && store.TeamMembers(teamId) == Some(members)
                && (forall id :: id != teamId ==> store.Team(id) == old(store.Team(id)))
      ensures PortsDistinct(old(store.teams)) && !PortTaken(old(store.teams), port) ==> PortsDistinct(store.teams)
    {
      route := RegisterServerToVelocity(teamId, port);
      if route != Routed {
        return;
      }
      store.AddNewTeam(teamId, teamName, port, members);
      if PortsDistinct(old(store.teams)) && !PortTaken(old(store.teams), port) {
        StoreKeepsPortsDistinct(old(store.teams), teamId, TeamData(Some(teamName), Some(port), Some(members)));
      }
    }

    /** The part of createAndRegisterServer after the allocation: start the
        container on `port`, and only if it started commit the route and the
        team. */
    method Provision(teamId: string, teamName: string, members: seq<string>, port: Int32,
                     io: FileIo, run: ProcessRun) returns (r: CreateOutcome)
      requires Valid()
      modifies store, docker, journal, proxy
      ensures Valid()
      ensures r != NoPortAvailable
      ensures old(journal.events) <= journal.events
      ensures store.ktor == old(store.ktor)
      ensures docker.template == old(docker.template)
      ensures docker.compose == ComposeAfter(old(docker.template), old(docker.compose), teamId, port, io)
      ensures r == Returned(false) <==> GenerateThrows(old(docker.template), old(docker.compose), io) || !ExitedCleanly(run)
      ensures r == InvalidAddress <==> r != Returned(false) && !IsSocketPort(port)
      ensures r == NameTaken <==>
                r != Returned(false) && IsSocketPort(port) && NameClash(old(proxy.servers), ServerInfo(teamId, LOCALHOST, port))
      ensures r != Returned(true) ==>
                store.teams == old(store.teams) && store.order == old(store.order) && proxy.servers == old(proxy.servers)
      ensures r != Returned(true) ==>
                forall e :: e in journal.events[|old(journal.events)|..] ==> !e.RegisteredServer? && !e.SavedData?
      ensures r == Returned(true) ==>
                && store.teams.Some?
                && IsSocketPort(port)
                && proxy.servers == old(proxy.servers)[ServerKey(teamId) := ServerInfo(teamId, LOCALHOST, port)]
                && |journal.events| >= |old(journal.events)| + 2
                && journal.events[|journal.events| - 2..] ==
                     [RegisteredServer(ServerInfo(teamId, LOCALHOST, port)), SavedData(store.teams.value, store.order)]
                && store.teams == Some(Inserted(old(store.teams), teamId, TeamData(Some(teamName), Some(port), Some(members))))
                && store.order == (if old(store.teams).Some? && teamId in old(store.teams).value then old(store.order)
                                   else old(store.order) + [teamId])
                && store.TeamName(teamId) == Some(teamName)
                && store.TeamPort(teamId) == Some(port)
                && store.TeamMembers(teamId) == Some(members)
                && (forall id :: id != teamId ==> store.Team(id) == old(store.Team(id)))
      ensures PortsDistinct(old(store.teams)) && !PortTaken(old(store.teams), port) ==> PortsDistinct(store.teams)
    {
      var success := docker.StartContainer(teamId, port, io, run);
      if !success {
        return Returned(false);
      }
      var route := Commit(teamId, teamName, port, members);
      r := match route
           case Routed => Returned(true)
           case AddressRefused => InvalidAddress
           case NameRefused => NameTaken;
    }

    /** `createAndRegisterServer`: allocate a port, start the container under
        the team id, and only if it started register the route and then store
        the team. The port is consumed whether or not the start succeeds. `io`
        and `run` stand for how the compose file operations and the
        `docker-compose up` process turn out. */
    method CreateAndRegisterServer(teamId: string, teamName: string, members: seq<string>,
                                   io: FileIo, run: ProcessRun) returns (r: CreateOutcome)
      requires Valid()
      modifies this, store, docker, journal, proxy
      ensures Valid()
      ensures calls == old(calls) + [CreateCall(teamId, teamName, members, r)]
      ensures old(journal.events) <= journal.events
      // The allocation step.
      ensures r == NoPortAvailable <==>
                forall q :: Inc32(old(nextAvailablePort)) <= q <= MAX_PORT ==> PortTaken(old(store.teams), q)
      ensures r == NoPortAvailable ==>
                && nextAvailablePort == Inc32(old(nextAvailablePort))
                && store.ktor == old(store.ktor)
                && journal.events == old(journal.events)
                && unchanged(docker)
                && proxy.servers == old(proxy.servers)
      ensures r != NoPortAvailable ==>
                && Inc32(old(nextAvailablePort)) <= nextAvailablePort <= MAX_PORT
                && !PortTaken(old(store.teams), nextAvailablePort)
                && (forall q :: Inc32(old(nextAvailablePort)) <= q < nextAvailablePort ==> PortTaken(old(store.teams), q))
                && (old(nextAvailablePort) < INT_MAX ==> old(nextAvailablePort) < nextAvailablePort)
                && store.ktor == (if old(store.ktor).Some?
                                  then Some(old(store.ktor).value.(portStart := Some(nextAvailablePort)))
                                  else None)
      // The container step.
      ensures r != NoPortAvailable ==>
                && docker.template == old(docker.template)
                && docker.compose == ComposeAfter(old(docker.template), old(docker.compose), teamId, nextAvailablePort, io)
                && (r == Returned(false) <==> GenerateThrows(old(docker.template), old(docker.compose), io) || !ExitedCleanly(run))
      // The route step: a started server on a port the socket address refuses.
      ensures r == InvalidAddress <==> r != NoPortAvailable && r != Returned(false) && !IsSocketPort(nextAvailablePort)
      // The route step: a name the proxy already holds with another address.
      ensures r == NameTaken <==>
                && r != NoPortAvailable && r != Returned(false) && IsSocketPort(nextAvailablePort)
                && NameClash(old(proxy.servers), ServerInfo(teamId, LOCALHOST, nextAvailablePort))
      // Commit only on success: the route first, then the team record.
      ensures r != Returned(true) ==>
                store.teams == old(store.teams) && store.order == old(store.order) && proxy.servers == old(proxy.servers)
      ensures r != Returned(true) ==>
                forall e :: e in journal.events[|old(journal.events)|..] ==> !e.RegisteredServer? && !e.SavedData?
      ensures r == Returned(true) ==>
                && store.teams.Some?
                && IsSocketPort(nextAvailablePort)
                && proxy.servers == old(proxy.servers)[ServerKey(teamId) := ServerInfo(teamId, LOCALHOST, nextAvailablePort)]
                && |journal.events| >= |old(journal.events)| + 2
                && journal.events[|journal.events| - 2..] ==
                     [RegisteredServer(ServerInfo(teamId, LOCALHOST, nextAvailablePort)),
                      SavedData(store.teams.value, store.order)]
                && store.teams == Some(Inserted(old(store.teams), teamId,
                                                TeamData(Some(teamName), Some(nextAvailablePort), Some(members))))
                && store.order == (if old(store.teams).Some? && teamId in old(store.teams).value then old(store.order)
                                   else old(store.order) + [teamId])
                && store.TeamName(teamId) == Some(teamName)
                && store.TeamPort(teamId) == Some(nextAvailablePort)
                && store.TeamMembers(teamId) == Some(members)
                && (forall id :: id != teamId ==> store.Team(id) == old(store.Team(id)))
      // Ports stay unique among stored teams.
      ensures PortsDistinct(old(store.teams)) ==> PortsDistinct(store.teams)
    {
      var slot := NextAvailablePort();
      if slot.None? {
        r := NoPortAvailable;
        calls := calls + [CreateCall(teamId, teamName, members, r)];
        return;
      }
      r := Provision(teamId, teamName, members, slot.value, io, run);
      calls := calls + [CreateCall(teamId, teamName, members, r)];
    }
  }
}
