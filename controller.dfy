/** The HTTP endpoint `POST /team/add` (ktor/controller/TeamContorller.kt):
    reads the three fields of the JSON body, checks every member against the
    team registry, and asks the service to provision the team. The status
    code and text of the response are the observable result. */
module TeamController {
  import opened Records
  import opened Config
  import opened Docker
  import opened Contest

  /** A value of the decoded JSON body, as far as the casts can tell:
      a string, a list (taken to hold strings), or anything else. */
  datatype Json = JString(text: string) | JList(items: seq<string>) | JOther

  /** The three fields once they have the expected types. */
  datatype Request = Request(teamId: string, teamName: string, members: seq<string>)

  datatype Response = Response(status: int, text: string)

  /** A response sent, or an exception that leaves the handler. */
  datatype HandlerOutcome = Responded(response: Response) | Raised

  const OK: int := 200
  const BAD_REQUEST: int := 400
  const INTERNAL_SERVER_ERROR: int := 500

  const INVALID_INPUT: string := "Invalid input data"
  const ADDED: string := "Team added successfully"
  const FAILED: string := "Failed to add team"

  /** The rejection text for a member. */
  function MemberExists(member: string): string {
    "Member " + member + " is exist!"
  }

  /** `params["teamId"] as? String` and so on: a field that is missing or of
      another type makes the whole request invalid. */
  function ParseRequest(body: map<string, Json>): (r: Option<Request>)
    ensures r.Some? <==> && "teamId" in body && body["teamId"].JString?
                         && "teamName" in body && body["teamName"].JString?
                         && "members" in body && body["members"].JList?
    ensures r.Some? ==> && r.value.teamId == body["teamId"].text
                        && r.value.teamName == body["teamName"].text
                        && r.value.members == body["members"].items
  {
    match (Lookup(body, "teamId"), Lookup(body, "teamName"), Lookup(body, "members"))
    case (Some(JString(id)), Some(JString(name)), Some(JList(members))) => Some(Request(id, name, members))
    case _ => None
  }

  function Lookup(body: map<string, Json>, key: string): (v: Option<Json>)
    ensures v.Some? <==> key in body
    ensures v.Some? ==> v.value == body[key]
  {
    if key in body then Some(body[key]) else None
  }

  /** The body a client sends for a request. */
  function BodyOf(req: Request): map<string, Json> {
    map["teamId" := JString(req.teamId), "teamName" := JString(req.teamName), "members" := JList(req.members)]
  }

  /** `ParseRequest` is the inverse of `BodyOf`: every well-formed request is
      read back from its body, whatever else the body holds. */
  lemma ParseBodyOf(req: Request, extra: map<string, Json>)
    ensures ParseRequest(extra + BodyOf(req)) == Some(req)
  {
  }

  /** The position of the first member that the member check rejects, or
      `|members|` when it rejects none. A member is rejected when its being
      in some team equals `rejectRegistered`. */
  function FirstRejected(teams: Option<map<string, TeamData>>, members: seq<string>, rejectRegistered: bool): (k: nat)
    ensures k <= |members|
    ensures k < |members| ==> InAnyTeam(teams, members[k]) == rejectRegistered
    ensures forall j :: 0 <= j < k ==> InAnyTeam(teams, members[j]) != rejectRegistered
    decreases |members|
  {
    if members == [] then 0
    else if InAnyTeam(teams, members[0]) == rejectRegistered then 0
    else
      var k := FirstRejected(teams, members[1..], rejectRegistered);
      assert forall j :: 1 <= j < |members| ==> members[j] == members[1..][j - 1];
      1 + k
  }

  /** What the handler answers once the service has been called. */
  function Answer(outcome: CreateOutcome): (h: HandlerOutcome)
    ensures h == Responded(Response(OK, ADDED)) <==> outcome == Returned(true)
    ensures h == Responded(Response(INTERNAL_SERVER_ERROR, FAILED)) <==> outcome == Returned(false)
    ensures h == Raised <==> outcome == NoPortAvailable || outcome == InvalidAddress || outcome == NameTaken
  {
    match outcome
    case Returned(true) => Responded(Response(OK, ADDED))
    case Returned(false) => Responded(Response(INTERNAL_SERVER_ERROR, FAILED))
    case NoPortAvailable => Raised
    case InvalidAddress => Raised
    case NameTaken => Raised
  }

  /** The handler, with the member check as a parameter: the rejection test
      is whether the member is in some team, compared with `rejectRegistered`.
      The first rejected member is answered with 400 and nothing happens;
      otherwise the service is called exactly once. */
  method Handle(service: ContestService, body: map<string, Json>, io: FileIo, run: ProcessRun,
                rejectRegistered: bool) returns (h: HandlerOutcome)
    requires service.Valid()
    modifies service, service.store, service.docker, service.journal, service.proxy
    ensures service.Valid()
    ensures |old(service.calls)| <= |service.calls| <= |old(service.calls)| + 1
    ensures ParseRequest(body).None? ==>
              && h == Responded(Response(BAD_REQUEST, INVALID_INPUT))
              && service.calls == old(service.calls)
              && unchanged(service, service.store, service.docker, service.journal, service.proxy)
    ensures ParseRequest(body).Some? ==>
              var req := ParseRequest(body).value;
              var k := FirstRejected(old(service.store.teams), req.members, rejectRegistered);
              && (k < |req.members| ==>
                    && h == Responded(Response(BAD_REQUEST, MemberExists(req.members[k])))
                    && service.calls == old(service.calls)
                    && unchanged(service, service.store, service.docker, service.journal, service.proxy))
              && (k == |req.members| ==>
                    && |service.calls| == |old(service.calls)| + 1
                    && var call := service.calls[|service.calls| - 1];
                    && service.calls == old(service.calls) + [call]
                    && call.teamId == req.teamId && call.teamName == req.teamName && call.members == req.members
                    && h == Answer(call.outcome))
    ensures rejectRegistered && MembersDisjoint(old(service.store.teams)) ==> MembersDisjoint(service.store.teams)
  {
    var parsed := ParseRequest(body);
    if parsed.None? {
      return Responded(Response(BAD_REQUEST, INVALID_INPUT));
    }
    var req := parsed.value;
    var i := 0;
    while i < |req.members|
      invariant 0 <= i <= |req.members|
      invariant forall j :: 0 <= j < i ==> InAnyTeam(service.store.teams, req.members[j]) != rejectRegistered
    {
      if service.store.IsMemberInAnyTeam(req.members[i]) == rejectRegistered {
        return Responded(Response(BAD_REQUEST, MemberExists(req.members[i])));
      }
      i := i + 1;
    }
    ghost var before := service.store.teams;
    var outcome := service.CreateAndRegisterServer(req.teamId, req.teamName, req.members, io, run);
    if rejectRegistered && MembersDisjoint(before) && outcome == Returned(true) {
      StoreKeepsMembersDisjoint(before, req.teamId,
                                TeamData(Some(req.teamName), Some(service.nextAvailablePort), Some(req.members)));
    }
    h := Answer(outcome);
  }

  /** `post("/team/add")` as written: a member is rejected, with the text
      "is exist!", when it is in NO team, so only members who already belong
      to a team get through. */
  method AddTeam(service: ContestService, body: map<string, Json>, io: FileIo, run: ProcessRun)
    returns (h: HandlerOutcome)
    requires service.Valid()
    modifies service, service.store, service.docker, service.journal, service.proxy
    ensures service.Valid()
    ensures |old(service.calls)| <= |service.calls| <= |old(service.calls)| + 1
    ensures ParseRequest(body).None? ==>
              && h == Responded(Response(BAD_REQUEST, INVALID_INPUT))
              && service.calls == old(service.calls)
              && unchanged(service, service.store, service.docker, service.journal, service.proxy)
    ensures ParseRequest(body).Some? ==>
              var req := ParseRequest(body).value;
              var k := FirstRejected(old(service.store.teams), req.members, false);
              && (k < |req.members| ==>
                    && !InAnyTeam(old(service.store.teams), req.members[k])
                    && h == Responded(Response(BAD_REQUEST, MemberExists(req.members[k])))
                    && service.calls == old(service.calls)
                    && unchanged(service, service.store, service.docker, service.journal, service.proxy))
              && (k == |req.members| ==>
                    && (forall m :: m in req.members ==> InAnyTeam(old(service.store.teams), m))
                    && |service.calls| == |old(service.calls)| + 1
                    && var call := service.calls[|service.calls| - 1];
                    && service.calls == old(service.calls) + [call]
                    && call == CreateCall(req.teamId, req.teamName, req.members, call.outcome)
                    && h == Answer(call.outcome))
  {
    h := Handle(service, body, io, run, false);
  }

  /** The handler as its rejection text says it is meant to be: a member who
      is already in a team is rejected, so a team is only stored when none of
      its members belongs to another team. */
  method AddTeamCorrected(service: ContestService, body: map<string, Json>, io: FileIo, run: ProcessRun)
    returns (h: HandlerOutcome)
    requires service.Valid()
    modifies service, service.store, service.docker, service.journal, service.proxy
    ensures service.Valid()
    ensures |old(service.calls)| <= |service.calls| <= |old(service.calls)| + 1
    ensures ParseRequest(body).None? ==>
              && h == Responded(Response(BAD_REQUEST, INVALID_INPUT))
              && service.calls == old(service.calls)
              && unchanged(service, service.store, service.docker, service.journal, service.proxy)
    ensures ParseRequest(body).Some? ==>
              var req := ParseRequest(body).value;
              var k := FirstRejected(old(service.store.teams), req.members, true);
              && (k < |req.members| ==>
                    && InAnyTeam(old(service.store.teams), req.members[k])
                    && h == Responded(Response(BAD_REQUEST, MemberExists(req.members[k])))
                    && service.calls == old(service.calls)
                    && unchanged(service, service.store, service.docker, service.journal, service.proxy))
              && (k == |req.members| ==>
                    && (forall m :: m in req.members ==> !InAnyTeam(old(service.store.teams), m))
                    && |service.calls| == |old(service.calls)| + 1
                    && var call := service.calls[|service.calls| - 1];
                    && service.calls == old(service.calls) + [call]
                    && call == CreateCall(req.teamId, req.teamName, req.members, call.outcome)
                    && h == Answer(call.outcome))
    ensures MembersDisjoint(old(service.store.teams)) ==> MembersDisjoint(service.store.teams)
  {
    h := Handle(service, body, io, run, true);
  }

  /** The check as written lets a registered member through and turns a
      newcomer away: with `alice` in team `t1`, a request for `[alice]`
      passes the check and a request for `[carol]` is rejected. */
  lemma InvertedMemberCheck()
    ensures var teams := Some(map["t1" := TeamData(Some("Team 1"), Some(30001), Some(["alice"]))]);
            && InAnyTeam(teams, "alice") && !InAnyTeam(teams, "carol")
            && FirstRejected(teams, ["alice"], false) == 1
            && FirstRejected(teams, ["carol"], false) == 0
            && !MembersDisjoint(Some(Inserted(teams, "t2", TeamData(Some("Team 2"), Some(30002), Some(["alice"])))))
  {
    var teams := Some(map["t1" := TeamData(Some("Team 1"), Some(30001), Some(["alice"]))]);
    assert ListsMember(teams.value["t1"], "alice");
    var after := Inserted(teams, "t2", TeamData(Some("Team 2"), Some(30002), Some(["alice"])));
    assert ListsMember(after["t1"], "alice") && ListsMember(after["t2"], "alice");
  }
}
