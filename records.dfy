/** Values shared by the components of the provisioning plugin: the typed
    views of the persisted settings and team records, the 32-bit integers of
    the JVM, and the journal of externally visible effects (file saves,
    route registrations, compose runs) that the components append to. */
module Records {

  datatype Option<+T> = None | Some(value: T)

  const INT_MIN: int := -0x8000_0000
  const INT_MAX: int := 0x7fff_ffff

  /** A Kotlin `Int`. */
  type Int32 = x: int | -0x8000_0000 <= x <= 0x7fff_ffff

  /** The `ktor` section of config.yml. A key that is absent or holds a value
      of the wrong type reads as `None`, just as `as? Int` / `as? String`
      yields null in the source. */
  datatype KtorSection = KtorSection(
    portStart: Option<Int32>,
    httpPort: Option<Int32>,
    bearerToken: Option<string>)

  /** One entry of the `teams` map of data.yml; each field may be missing. */
  datatype TeamData = TeamData(
    name: Option<string>,
    port: Option<Int32>,
    members: Option<seq<string>>)

  /** The address a proxy route forwards to. */
  datatype ServerInfo = ServerInfo(name: string, host: string, port: Int32)

  /** An effect on the world outside the process. */
  datatype Event =
    | SavedConfig(ktor: KtorSection)
    | SavedData(teams: map<string, TeamData>, order: seq<string>)
    | RegisteredServer(info: ServerInfo)
    | ComposeUp(project: string, composeFile: Option<string>)
    | ComposeDown(composeFile: Option<string>)

  /** An append-only log of effects, shared by all components. */
  class Journal {
    var events: seq<Event>

    constructor ()
      ensures events == []
    {
      events := [];
    }

    method Record(e: Event)
      modifies this
      ensures events == old(events) + [e]
    {
      events := events + [e];
    }
  }
}
