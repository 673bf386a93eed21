/** The container runtime (utils/DockerManager.kt): renders the compose file
    from the template and runs `docker-compose up` / `down`. The two files
    (docker-compose-default.yml and docker-compose.yml) are fields; what a
    file operation or an external process does is given as a parameter. */
module Docker {
  import opened Records
  import opened Text

  const NAME_PLACEHOLDER: string := "#SERVER_NAME_PLACEHOLDER"
  const PORT_PLACEHOLDER: string := "#SERVER_PORT_PLACEHOLDER"

  /** The substitutions, in the order the source applies them. */
  function Replacements(serverName: string, port: Int32): seq<(string, string)>
  {
    [(NAME_PLACEHOLDER, serverName), (PORT_PLACEHOLDER, Decimal(port))]
  }

  /** Applies each substitution to the whole content, one after another. */
  function ReplaceEach(content: string, reps: seq<(string, string)>): string
    requires forall i :: 0 <= i < |reps| ==> |reps[i].0| > 0
    decreases |reps|
  {
    if reps == [] then content
    else ReplaceEach(ReplaceAll(content, reps[0].0, reps[0].1), reps[1..])
  }

  /** The rendered compose file for a server. */
  function Render(template: string, serverName: string, port: Int32): string
  {
    ReplaceEach(template, Replacements(serverName, port))
  }

  /** Every name placeholder is replaced first, then every port placeholder
      of the result (so a server name may itself bring in a port placeholder). */
  lemma RenderOrder(template: string, serverName: string, port: Int32)
    ensures Render(template, serverName, port) ==
              ReplaceAll(ReplaceAll(template, NAME_PLACEHOLDER, serverName), PORT_PLACEHOLDER, Decimal(port))
  {
    var reps := Replacements(serverName, port);
    var named := ReplaceAll(template, NAME_PLACEHOLDER, serverName);
    assert reps[1..][1..] == [];
    assert ReplaceEach(template, reps) == ReplaceEach(named, reps[1..]);
  }

  /** The port's decimal form shares no character with the port placeholder. */
  lemma DecimalAvoidsPortPlaceholder(port: Int32)
    ensures SharesNoChar(Decimal(port), PORT_PLACEHOLDER)
  {
    var d := Decimal(port);
    forall i, j | 0 <= i < |d| && 0 <= j < |PORT_PLACEHOLDER| ensures d[i] != PORT_PLACEHOLDER[j] {
      assert PORT_PLACEHOLDER[j] != '-' && !IsDigit(PORT_PLACEHOLDER[j]);
    }
  }

  /** No port placeholder is left in a rendered file, whatever the template
      and the server name. */
  lemma RenderLeavesNoPortPlaceholder(template: string, serverName: string, port: Int32)
    ensures !Contains(Render(template, serverName, port), PORT_PLACEHOLDER)
  {
    RenderOrder(template, serverName, port);
    DecimalAvoidsPortPlaceholder(port);
    ReplaceAllRemovesKey(ReplaceAll(template, NAME_PLACEHOLDER, serverName), PORT_PLACEHOLDER, Decimal(port));
  }

  /** A template without placeholders renders to itself. */
  lemma RenderWithoutPlaceholders(template: string, serverName: string, port: Int32)
    requires !Contains(template, NAME_PLACEHOLDER) && !Contains(template, PORT_PLACEHOLDER)
    ensures Render(template, serverName, port) == template
  {
    RenderOrder(template, serverName, port);
    ReplaceAllWithoutKey(template, NAME_PLACEHOLDER, serverName);
    ReplaceAllWithoutKey(template, PORT_PLACEHOLDER, Decimal(port));
  }

  /** The file operation (if any) of generateDockerCompose that throws an
      IOException. */
  datatype FileStep = DeleteTarget | CopyTemplate | ReadTarget | WriteTarget
  datatype FileIo = FileIoOk | FailsAt(step: FileStep)

  /** How an external `docker-compose` process ends: an exit code, or an
      exception from starting it, reading its output or waiting for it. */
  datatype ProcessRun = Exited(code: Int32) | LaunchFailed | OutputReadFailed | Interrupted

  /** The only success signal of a compose command. */
  predicate ExitedCleanly(run: ProcessRun) {
    run.Exited? && run.code == 0
  }

  /** generateDockerCompose throws: a file operation that runs fails. With no
      template nothing runs; the delete runs only when the target exists. */
  predicate GenerateThrows(template: Option<string>, compose: Option<string>, io: FileIo) {
    template.Some? && io.FailsAt? && (io.step != DeleteTarget || compose.Some?)
  }

  /** The target file after generateDockerCompose. A failing operation is
      taken to have no effect; the operations before it have taken place. */
  function ComposeAfter(template: Option<string>, compose: Option<string>,
                        serverName: string, port: Int32, io: FileIo): Option<string>
  {
    if template.None? then compose
    else match io
      case FileIoOk => Some(Render(template.value, serverName, port))
      case FailsAt(DeleteTarget) => if compose.Some? then compose else Some(Render(template.value, serverName, port))
      case FailsAt(CopyTemplate) => None
      case FailsAt(_) => template
  }

  class DockerManager {
    /** docker-compose-default.yml, if it exists. */
    var template: Option<string>
    /** docker-compose.yml, if it exists (one file shared by all teams). */
    var compose: Option<string>
    const journal: Journal

    constructor (template: Option<string>, compose: Option<string>, journal: Journal)
      ensures this.template == template && this.compose == compose && this.journal == journal
    {
      this.template := template;
      this.compose := compose;
      this.journal := journal;
    }

    /** `generateDockerCompose`: returns whether an IOException was thrown. A
        missing template makes it return at once, leaving the target alone. */
    method GenerateDockerCompose(serverName: string, port: Int32, io: FileIo) returns (threw: bool)
      modifies this
      ensures template == old(template)
      ensures threw == GenerateThrows(old(template), old(compose), io)
      ensures compose == ComposeAfter(old(template), old(compose), serverName, port, io)
      ensures old(template).None? ==> compose == old(compose)
      ensures old(template).Some? && !threw ==> compose == Some(Render(old(template).value, serverName, port))
    {
      threw := false;
      if template.None? {
        return;
      }
      if compose.Some? {
        if io == FailsAt(DeleteTarget) {
          threw := true;
          return;
        }
        compose := None;
      }
      if io == FailsAt(CopyTemplate) {
        threw := true;
        return;
      }
      compose := template;
      if io == FailsAt(ReadTarget) {
        threw := true;
        return;
      }
      var content := compose.value;
      var reps := Replacements(serverName, port);
      var k := 0;
      while k < |reps|
        invariant 0 <= k <= |reps|
        invariant ReplaceEach(content, reps[k..]) == Render(template.value, serverName, port)
      {
        assert reps[k..][1..] == reps[k + 1..];
        content := ReplaceAll(content, reps[k].0, reps[k].1);
        k := k + 1;
      }
      if io == FailsAt(WriteTarget) {
        threw := true;
        return;
      }
      compose := Some(content);
    }

    /** `startWithDockerCompose`: `docker-compose -f docker-compose.yml -p
        <serverName> up -d`; true exactly when it exits with code 0, false on
        any other code and on any exception. */
    method StartWithDockerCompose(serverName: string, run: ProcessRun) returns (ok: bool)
      modifies journal
      ensures ok <==> ExitedCleanly(run)
      ensures journal.events == old(journal.events) +
                (if run == LaunchFailed then [] else [ComposeUp(serverName, compose)])
    {
      if run == LaunchFailed {
        return false;
      }
      journal.Record(ComposeUp(serverName, compose));
      match run {
        case Exited(code) => ok := code == 0;
        case _ => ok := false;
      }
    }

    /** `startContainer`: renders the compose file, then starts it; an
        IOException while rendering gives false without running anything. A
        missing template is not an error: the command still runs, on whatever
        compose file is already there. */
    method StartContainer(serverName: string, port: Int32, io: FileIo, run: ProcessRun) returns (ok: bool)
      modifies this, journal
      ensures template == old(template)
      ensures compose == ComposeAfter(old(template), old(compose), serverName, port, io)
      ensures ok <==> !GenerateThrows(old(template), old(compose), io) && ExitedCleanly(run)
      ensures GenerateThrows(old(template), old(compose), io) || run == LaunchFailed ==>
                journal.events == old(journal.events)
      ensures !GenerateThrows(old(template), old(compose), io) && run != LaunchFailed ==>
                journal.events == old(journal.events) + [ComposeUp(serverName, compose)]
    {
      var threw := GenerateDockerCompose(serverName, port, io);
      if threw {
        return false;
      }
      ok := StartWithDockerCompose(serverName, run);
    }

    /** `stopContainer`: `docker-compose -f docker-compose.yml down`, which
        names no project, so `serverName` only appears in log messages. True
        exactly when the command exits with code 0. The command reads no
        output, so `OutputReadFailed` does not arise here; like every other
        exception it would give false. */
    method StopContainer(serverName: string, run: ProcessRun) returns (ok: bool)
      modifies journal
      ensures ok <==> ExitedCleanly(run)
      ensures journal.events == old(journal.events) +
                (if run == LaunchFailed then [] else [ComposeDown(compose)])
    {
      if run == LaunchFailed {
        return false;
      }
      journal.Record(ComposeDown(compose));
      match run {
        case Exited(code) => ok := code == 0;
        case _ => ok := false;
      }
    }
  }
}
