/** The proxy command `/contest create <teamId> <teamName> <members>`
    (commands/StartServerCommand.kt): checks the arguments, splits the member
    list on commas and asks the service to provision the team. The messages
    sent back to the command source are its observable result. */
module Commands {
  import opened Records
  import opened Text
  import opened Docker
  import opened Contest

  const USAGE: string := "Usage: /contest create <teamId> <teamName> <members>"

  /** The arguments of an accepted `create` command. */
  datatype CreateArgs = CreateArgs(teamId: string, teamName: string, members: seq<string>)

  /** Exactly four arguments, the first being `create`; the fourth is split
      on `,` with empty segments kept, so it is recovered by joining. */
  function ParseCreate(args: seq<string>): (r: Option<CreateArgs>)
    ensures r.Some? <==> |args| == 4 && args[0] == "create"
    ensures r.Some? ==> && r.value.teamId == args[1] && r.value.teamName == args[2]
                        && |r.value.members| >= 1
                        && (forall i :: 0 <= i < |r.value.members| ==> ',' !in r.value.members[i])
                        && Join(r.value.members, ',') == args[3]
  {
    if |args| != 4 || args[0] != "create" then None
    else
      JoinSplit(args[3], ',');
      Some(CreateArgs(args[1], args[2], Split(args[3], ',')))
  }

  /** The command line that creates a team parses back to that team, for any
      non-empty member list whose names hold no comma. */
  lemma ParseCreateOfCommandLine(a: CreateArgs)
    requires |a.members| >= 1
    requires forall i :: 0 <= i < |a.members| ==> ',' !in a.members[i]
    ensures ParseCreate(["create", a.teamId, a.teamName, Join(a.members, ',')]) == Some(a)
  {
    SplitJoin(a.members, ',');
  }

  /** The message reporting the service's Boolean result. */
  function Reply(teamName: string, success: bool): string
  {
    if success then "Server for team '" + teamName + "' created successfully."
    else "Failed to create server for team '" + teamName + "'."
  }

  /** `execute`: `sent` are the messages sent to the source; `raised` is an
      exception of the service (no free port, a port the socket address
      refuses, or a name the proxy already holds), which the command does not catch. */
  method Execute(service: ContestService, args: seq<string>, io: FileIo, run: ProcessRun)
    returns (sent: seq<string>, raised: bool)
    requires service.Valid()
    modifies service, service.store, service.docker, service.journal, service.proxy
    ensures service.Valid()
    ensures ParseCreate(args).None? ==>
              && sent == [USAGE] && !raised
              && service.calls == old(service.calls)
              && unchanged(service, service.store, service.docker, service.journal, service.proxy)
    ensures ParseCreate(args).Some? ==>
              var a := ParseCreate(args).value;
              && |service.calls| == |old(service.calls)| + 1
              && var call := service.calls[|service.calls| - 1];
              && service.calls == old(service.calls) + [call]
              && call.teamId == args[1] && call.teamName == args[2] && call.members == a.members
              && (call.outcome.Returned? ==> sent == [Reply(args[2], call.outcome.success)] && !raised)
              && (!call.outcome.Returned? ==> sent == [] && raised)
  {
    var parsed := ParseCreate(args);
    if parsed.None? {
      return [USAGE], false;
    }
    var a := parsed.value;
    var outcome := service.CreateAndRegisterServer(a.teamId, a.teamName, a.members, io, run);
    match outcome {
      case Returned(success) =>
        sent, raised := [Reply(a.teamName, success)], false;
      case _ =>
        sent, raised := [], true;
    }
  }
}
