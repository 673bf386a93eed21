/** The settings and team registry of the plugin (utils/ConfigManager.kt):
    the `ktor` section of config.yml and the `teams` map of data.yml, held in
    memory and written out in full after every change. File loading and the
    YAML encoding are outside the model; every write-out is a `SavedConfig`
    or `SavedData` event in the shared journal. */
module Config {
  import opened Records

  const DEFAULT_START_PORT: Int32 := 30000
  const DEFAULT_HTTP_PORT: Int32 := 8080

  ghost predicate Distinct(ids: seq<string>) {
    forall i, j :: 0 <= i < j < |ids| ==> ids[i] != ids[j]
  }

  /** `members.contains(member)` on a record whose member list may be missing. */
  predicate ListsMember(t: TeamData, member: string) {
    t.members.Some? && member in t.members.value
  }

  /** The team at position `j` of `ids` lists the member. */
  predicate ListedAt(ids: seq<string>, teams: map<string, TeamData>, member: string, j: int)
    requires 0 <= j < |ids|
  {
    ids[j] in teams && ListsMember(teams[ids[j]], member)
  }

  /** The position of the first id in `ids` whose team lists the member, or
      `|ids|` when there is none. */
  function FirstIndexWith(ids: seq<string>, teams: map<string, TeamData>, member: string): (k: nat)
    ensures k <= |ids|
    ensures k < |ids| ==> ListedAt(ids, teams, member, k)
    ensures forall j :: 0 <= j < k ==> !ListedAt(ids, teams, member, j)
    decreases |ids|
  {
    if ids == [] then 0
    else if ListedAt(ids, teams, member, 0) then 0
    else
      var k := FirstIndexWith(ids[1..], teams, member);
      assert forall j :: 1 <= j < |ids| ==> ListedAt(ids, teams, member, j) == ListedAt(ids[1..], teams, member, j - 1);
      1 + k
  }

  /** The first id, in the given order, of a team listing the member (the
      `find` over the map's entries). */
  function FirstTeamWith(ids: seq<string>, teams: map<string, TeamData>, member: string): (r: Option<string>)
    ensures r.Some? ==> r.value in ids && r.value in teams && ListsMember(teams[r.value], member)
    ensures r.None? <==> forall id :: id in ids && id in teams ==> !ListsMember(teams[id], member)
  {
    var k := FirstIndexWith(ids, teams, member);
    if k < |ids| then Some(ids[k])
    else
      assert forall id :: id in ids && id in teams ==> !ListsMember(teams[id], member) by {
        forall id | id in ids && id in teams ensures !ListsMember(teams[id], member) {
          var j :| 0 <= j < |ids| && ids[j] == id;
          assert !ListedAt(ids, teams, member, j);
        }
      }
      None
  }

  /** Some team of the map records this port. */
  ghost predicate PortTaken(teams: Option<map<string, TeamData>>, port: int) {
    teams.Some? && exists id :: id in teams.value && teams.value[id].port == Some(port)
  }

  /** No two teams of the map record the same port. */
  ghost predicate PortsDistinct(teams: Option<map<string, TeamData>>) {
    teams.Some? ==> forall a, b :: a in teams.value && b in teams.value && a != b && teams.value[a].port.Some? ==>
                                     teams.value[a].port != teams.value[b].port
  }

  /** The `teams` map after `teams[teamId] = t`; a missing map is created. */
  function Inserted(teams: Option<map<string, TeamData>>, teamId: string, t: TeamData): (m: map<string, TeamData>)
    ensures teamId in m && m[teamId] == t
    ensures forall id :: id in m <==> id == teamId || (teams.Some? && id in teams.value)
    ensures forall id :: id != teamId && id in m ==> m[id] == teams.value[id]
  {
    (if teams.Some? then teams.value else map[])[teamId := t]
  }

  /** Storing a team under a port no team records keeps the ports distinct
      (the allocator's guarantee, carried through addNewTeam). */
  lemma StoreKeepsPortsDistinct(teams: Option<map<string, TeamData>>, teamId: string, t: TeamData)
    requires PortsDistinct(teams)
    requires t.port.Some? ==> !PortTaken(teams, t.port.value)
    ensures PortsDistinct(Some(Inserted(teams, teamId, t)))
  {
    var before := if teams.Some? then teams.value else map[];
    var after := Inserted(teams, teamId, t);
    forall a, b | a in after && b in after && a != b && after[a].port.Some? ensures after[a].port != after[b].port {
      if a == teamId {
        assert b in before && after[b] == before[b];
        assert before[b].port != t.port;
      } else if b == teamId {
        assert a in before && after[a] == before[a];
        assert before[a].port != t.port;
      } else {
        assert after[a] == before[a] && after[b] == before[b];
      }
    }
  }

  /** Some team of the map lists the member. */
  predicate InAnyTeam(teams: Option<map<string, TeamData>>, member: string) {
    teams.Some? && exists id :: id in teams.value && ListsMember(teams.value[id], member)
  }

  /** No member is listed by two teams of the map. */
  ghost predicate MembersDisjoint(teams: Option<map<string, TeamData>>) {
    teams.Some? ==> forall a, b, m :: a in teams.value && b in teams.value && a != b && ListsMember(teams.value[a], m) ==>
                                        !ListsMember(teams.value[b], m)
  }

  /** Storing a team whose members no team lists keeps every member in at
      most one team, also when the record replaces an earlier one. */
  lemma StoreKeepsMembersDisjoint(teams: Option<map<string, TeamData>>, teamId: string, t: TeamData)
    requires MembersDisjoint(teams)
    requires t.members.Some? ==> forall m :: m in t.members.value ==> !InAnyTeam(teams, m)
    ensures MembersDisjoint(Some(Inserted(teams, teamId, t)))
  {
    var after := Inserted(teams, teamId, t);
    forall a, b, m | a in after && b in after && a != b && ListsMember(after[a], m) ensures !ListsMember(after[b], m) {
      if a == teamId {
        assert after[b] == teams.value[b];
        assert !InAnyTeam(teams, m);
      } else if b == teamId {
        assert after[a] == teams.value[a];
        assert InAnyTeam(teams, m);
      } else {
        assert after[a] == teams.value[a] && after[b] == teams.value[b];
      }
    }
  }

  class ConfigManager {
    /** `config["ktor"]`; `None` when absent or not a map. */
    var ktor: Option<KtorSection>
    /** `data["teams"]`; `None` when absent. */
    var teams: Option<map<string, TeamData>>
    /** The iteration order of the `teams` map (a LinkedHashMap: insertion order). */
    var order: seq<string>
    const journal: Journal

    ghost predicate Valid()
      reads this`teams, this`order
    {
      && (teams.None? ==> order == [])
      && (teams.Some? ==> Distinct(order) && forall id :: id in teams.value <==> id in order)
    }

    /** Loads the given file contents (the `init` block), then fills in a
        bearer token when there is none; `freshToken` stands for the random
        token the source generates. */
    constructor (loadedKtor: Option<KtorSection>, loadedTeams: Option<map<string, TeamData>>,
                 loadedOrder: seq<string>, freshToken: string, journal: Journal)
      requires loadedTeams.None? ==> loadedOrder == []
      requires loadedTeams.Some? ==> Distinct(loadedOrder) && forall id :: id in loadedTeams.value <==> id in loadedOrder
      modifies journal
      ensures Valid() && this.journal == journal
      ensures teams == loadedTeams && order == loadedOrder
      ensures loadedKtor.None? ==> ktor == None && journal.events == old(journal.events)
      ensures loadedKtor.Some? && loadedKtor.value.bearerToken.Some? ==>
                ktor == loadedKtor && journal.events == old(journal.events)
      ensures loadedKtor.Some? && loadedKtor.value.bearerToken.None? ==>
                && ktor == Some(loadedKtor.value.(bearerToken := Some(freshToken)))
                && journal.events == old(journal.events) + [SavedConfig(ktor.value)]
      ensures ktor.Some? <==> BearerToken().Some?
    {
      ktor := loadedKtor;
      teams := loadedTeams;
      order := loadedOrder;
      this.journal := journal;
      new;
      if BearerToken() == None {
        SetBearerToken(freshToken);
      }
    }

    /** `getStartPort`: the stored `port-start`, else 30000. */
    function StartPort(): (p: Int32)
      reads this`ktor
      ensures ktor.Some? && ktor.value.portStart.Some? ==> p == ktor.value.portStart.value
      ensures ktor.None? || ktor.value.portStart.None? ==> p == DEFAULT_START_PORT
    {
      if ktor.Some? && ktor.value.portStart.Some? then ktor.value.portStart.value else DEFAULT_START_PORT
    }

    /** `getPort`: the stored `http-port`, else 8080. */
    function HttpPort(): (p: Int32)
      reads this`ktor
      ensures ktor.Some? && ktor.value.httpPort.Some? ==> p == ktor.value.httpPort.value
      ensures ktor.None? || ktor.value.httpPort.None? ==> p == DEFAULT_HTTP_PORT
    {
      if ktor.Some? && ktor.value.httpPort.Some? then ktor.value.httpPort.value else DEFAULT_HTTP_PORT
    }

    /** `getBearerToken`: there is no token without a `ktor` section. */
    function BearerToken(): (t: Option<string>)
      reads this`ktor
      ensures t.Some? ==> ktor.Some? && ktor.value.bearerToken == t
      ensures ktor.Some? ==> t == ktor.value.bearerToken
    {
      if ktor.Some? then ktor.value.bearerToken else None
    }

    /** `setStartPort`: without a `ktor` section nothing happens and nothing is saved. */
    method SetStartPort(port: Int32)
      modifies this, journal
      ensures teams == old(teams) && order == old(order)
      ensures old(ktor).None? ==> ktor == None && journal.events == old(journal.events)
      ensures old(ktor).Some? ==>
                && ktor == Some(old(ktor).value.(portStart := Some(port)))
                && journal.events == old(journal.events) + [SavedConfig(ktor.value)]
                && StartPort() == port
    {
      if ktor.Some? {
        ktor := Some(ktor.value.(portStart := Some(port)));
        journal.Record(SavedConfig(ktor.value));
      }
    }

    /** `setBearerToken` (private in the source): like SetStartPort. */
    method SetBearerToken(token: string)
      modifies this, journal
      ensures teams == old(teams) && order == old(order)
      ensures old(ktor).None? ==> ktor == None && journal.events == old(journal.events)
      ensures old(ktor).Some? ==>
                && ktor == Some(old(ktor).value.(bearerToken := Some(token)))
                && journal.events == old(journal.events) + [SavedConfig(ktor.value)]
                && BearerToken() == Some(token)
    {
      if ktor.Some? {
        ktor := Some(ktor.value.(bearerToken := Some(token)));
        journal.Record(SavedConfig(ktor.value));
      }
    }

    /** `getTeamList`: the stored ids in map order, each once. */
    function TeamList(): (ids: seq<string>)
      reads this`teams, this`order
      requires Valid()
      ensures forall id :: id in ids <==> teams.Some? && id in teams.value
      ensures Distinct(ids)
    {
      if teams.None? then [] else order
    }

    /** `teams[teamId]`. */
    function Team(teamId: string): (t: Option<TeamData>)
      reads this`teams, this`order
      ensures t.Some? <==> teams.Some? && teamId in teams.value
    {
      if teams.Some? && teamId in teams.value then Some(teams.value[teamId]) else None
    }

    /** `getTeamName`: present only for a stored team whose record has a name. */
    function TeamName(teamId: string): (r: Option<string>)
      reads this`teams, this`order
      requires Valid()
      ensures r.Some? <==> teamId in TeamList() && Team(teamId).value.name.Some?
      ensures r.Some? ==> r == Team(teamId).value.name
    {
      if Team(teamId).Some? then Team(teamId).value.name else None
    }

    /** `getTeamPort`: present only for a stored team whose record has an Int port. */
    function TeamPort(teamId: string): (r: Option<Int32>)
      reads this`teams, this`order
      requires Valid()
      ensures r.Some? <==> teamId in TeamList() && Team(teamId).value.port.Some?
      ensures r.Some? ==> r == Team(teamId).value.port
    {
      if Team(teamId).Some? then Team(teamId).value.port else None
    }

    /** `getTeamMembers`: present only for a stored team whose record has a list. */
    function TeamMembers(teamId: string): (r: Option<seq<string>>)
      reads this`teams, this`order
      requires Valid()
      ensures r.Some? <==> teamId in TeamList() && Team(teamId).value.members.Some?
      ensures r.Some? ==> r == Team(teamId).value.members
    {
      if Team(teamId).Some? then Team(teamId).value.members else None
    }

    /** The stored team `teamId` lists `member`. */
    predicate Lists(teamId: string, member: string)
      reads this`teams, this`order
    {
      Team(teamId).Some? && ListsMember(Team(teamId).value, member)
    }

    /** `getTeamIdByMember`: the first team, in map order, listing the member. */
    function TeamIdByMember(member: string): (r: Option<string>)
      reads this`teams, this`order
      requires Valid()
      ensures r.Some? ==> r.value in TeamList() && Lists(r.value, member)
    {
      if teams.None? then None else FirstTeamWith(order, teams.value, member)
    }

    /** `isMemberInAnyTeam`: some stored team lists the member. */
    function IsMemberInAnyTeam(member: string): (b: bool)
      reads this`teams, this`order
      ensures b <==> exists id :: Lists(id, member)
    {
      var b := InAnyTeam(teams, member);
      assert b ==> exists id :: Lists(id, member) by {
        if b {
          var id :| id in teams.value && ListsMember(teams.value[id], member);
          assert Lists(id, member);
        }
      }
      b
    }

    /** `getTeamIdPortMap`: every stored team with an Int port, and no other. */
    method TeamIdPortMap() returns (m: map<string, Int32>)
      requires Valid()
      ensures forall id :: id in m <==> TeamPort(id).Some?
      ensures forall id :: id in m ==> TeamPort(id) == Some(m[id])
      ensures forall id :: id in m ==> id in TeamList()
    {
      m := map[];
      if teams.None? {
        return;
      }
      var t := teams.value;
      var i := 0;
      while i < |order|
        invariant 0 <= i <= |order|
        invariant forall id :: id in m <==> id in order[..i] && t[id].port.Some?
        invariant forall id :: id in m ==> t[id].port == Some(m[id])
      {
        var id := order[i];
        assert order[..i + 1] == order[..i] + [id];
        match t[id].port {
          case Some(p) => m := m[id := p];
          case None =>
        }
        i := i + 1;
      }
      assert order[..i] == order;
    }

    /** `isPortExist`, which the source calls but does not define here: taken
        to be "the port is a value of getTeamIdPortMap()". */
    method IsPortExist(port: int) returns (b: bool)
      requires Valid()
      ensures b <==> PortTaken(teams, port)
    {
      var m := TeamIdPortMap();
      b := port in m.Values;
      if b {
        var id :| id in m && m[id] == port;
        assert TeamPort(id) == Some(port);
        assert id in teams.value && teams.value[id].port == Some(port);
      } else {
        if teams.Some? {
          forall id | id in teams.value ensures teams.value[id].port != Some(port) {
            assert TeamPort(id) == teams.value[id].port;
            if id in m {
              assert m[id] in m.Values;
            }
          }
        }
      }
    }

    /** `addNewTeam`: writes the record under `teamId`, replacing any earlier
        one without complaint, and saves the data file. */
    method AddNewTeam(teamId: string, teamName: string, port: Int32, members: seq<string>)
      requires Valid()
      modifies this, journal
      ensures Valid()
      ensures ktor == old(ktor)
      ensures teams == Some(Inserted(old(teams), teamId, TeamData(Some(teamName), Some(port), Some(members))))
      ensures order == if old(teams).Some? && teamId in old(teams).value then old(order) else old(order) + [teamId]
      ensures journal.events == old(journal.events) + [SavedData(teams.value, order)]
      ensures TeamName(teamId) == Some(teamName)
      ensures TeamPort(teamId) == Some(port)
      ensures TeamMembers(teamId) == Some(members)
      ensures forall id :: id != teamId ==> Team(id) == old(Team(id))
    {
      var before := if teams.Some? then teams.value else map[];
      if teamId !in before {
        order := order + [teamId];
      }
      teams := Some(Inserted(teams, teamId, TeamData(Some(teamName), Some(port), Some(members))));
      journal.Record(SavedData(teams.value, order));
    }
  }

  /** The two member queries agree: a member is in some team exactly when a
      team id is found for it, and the id found is the first team in map
      order that lists the member. */
  lemma MemberQueriesAgree(cm: ConfigManager, member: string)
    requires cm.Valid()
    ensures cm.IsMemberInAnyTeam(member) <==> cm.TeamIdByMember(member).Some?
    ensures cm.TeamIdByMember(member).Some? ==>
              forall j :: 0 <= j < |cm.TeamList()| && cm.Lists(cm.TeamList()[j], member) ==>
                cm.TeamIdByMember(member).value in cm.TeamList()[..j + 1]
  {
    if cm.teams.Some? {
      var ids, teams := cm.order, cm.teams.value;
      var k := FirstIndexWith(ids, teams, member);
      if cm.IsMemberInAnyTeam(member) {
        var id :| id in teams && ListsMember(teams[id], member);
        assert id in ids;
      }
      forall j | 0 <= j < |ids| && cm.Lists(ids[j], member) ensures k <= j && ids[k] in ids[..j + 1] {
        assert ListedAt(ids, teams, member, j);
        assert ids[..j + 1][k] == ids[k];
      }
    }
  }
}
