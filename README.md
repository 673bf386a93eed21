# BuildContest provisioning core, modelled in Dafny

BuildContest is a Velocity proxy plugin that provisions one game server per
contest team. A team is created in one of two ways: with `POST /team/add` on
the embedded HTTP server, or with the proxy command
`/contest create <teamId> <teamName> <members>`. The plugin then does four
things in order:

1. It allocates the next free port above a persisted cursor.
2. It renders `docker-compose.yml` from a template and runs
   `docker-compose up`.
3. Only when the container started, it registers a proxy route
   `teamId -> 127.0.0.1:port`.
4. It records the team in `data.yml`.

The project models that core:

- `records.dfy` (module `Records`): the shared values.
  - The `ktor` settings section and a team record.
  - Kotlin's 32-bit `Int`, as `Int32`.
  - A `Journal` that logs five kinds of effect: a saved config file, a saved data file, a registered proxy route, a `docker-compose up` and a `docker-compose down`.
  - The rendered compose file is not a journal event: it is the `compose` field of `DockerManager`. Messages and HTTP responses are the results of the command and the handler. Creating the YAML files on first start is not modelled.
- `text.dfy` (module `Text`): the Kotlin string operations the plugin relies on.
  - `String.replace`, as left-to-right, non-overlapping replacement.
  - `split(",")`, which keeps empty segments. `Join` is not called by the plugin: it is the inverse of `split` that the round-trip lemmas use.
  - `Int.toString()`.
  - `toLowerCase`, on the ASCII range, with which the proxy compares server names.
- `config.dfy` (module `Config`): the class `ConfigManager`.
  - It holds the `ktor` section, the `teams` map and the map's insertion order. The insertion order is the iteration order of the `LinkedHashMap` the YAML loader produces.
  - It also holds the getters with their defaults, the setters, the team queries and `addNewTeam`.
- `docker.dfy` (module `Docker`): the class `DockerManager`.
  - Its fields are the template file and the compose file.
  - It renders the placeholders and runs the compose commands. The outcome of each file operation and of each external process is a parameter.
- `contest.dfy` (module `Contest`): the class `ContestService`.
  - It holds the port cursor and the allocator.
  - It holds `createAndRegisterServer` and the route registration.
  - The class `Proxy` stands for the proxy's server registry, which refuses a name it already holds with another address.
  - A ghost log records every create call.
- `controller.dfy` (module `TeamController`): the `/team/add` handler, in two forms.
  - As written, the member check is inverted.
  - Corrected, a member who is already in a team is rejected.
- `command.dfy` (module `Commands`): the argument guard and the comma split of the `create` command, and its messages.

## Model

| member | source | states |
|---|---|---|
| `Config.ConfigManager.constructor` | src/main/kotlin/work/alsace/buildContest/utils/ConfigManager.kt:27-31 | after loading, a `ktor` section that has no bearer token gets the fresh token, and that one change is saved. A missing section stays missing and nothing is saved. Afterwards a token exists exactly when the section does |
| `Config.ConfigManager.StartPort` | src/main/kotlin/work/alsace/buildContest/utils/ConfigManager.kt:53-56 | the stored `port-start`, or 30000 when the section or the key is missing |
| `Config.ConfigManager.SetStartPort` | src/main/kotlin/work/alsace/buildContest/utils/ConfigManager.kt:63-67 | without a `ktor` section nothing changes and nothing is saved. Otherwise only `port-start` changes, the config file is saved once, and StartPort then returns the new port. Teams are untouched |
| `Config.ConfigManager.HttpPort` | src/main/kotlin/work/alsace/buildContest/utils/ConfigManager.kt:75-78 | the stored `http-port`, or 8080 when the section or the key is missing |
| `Config.ConfigManager.TeamIdPortMap` | src/main/kotlin/work/alsace/buildContest/utils/ConfigManager.kt:85-101 | the result holds exactly the stored teams whose record has an Int port, each mapped to that port |
| `Config.ConfigManager.TeamList` | src/main/kotlin/work/alsace/buildContest/utils/ConfigManager.kt:108-111 | exactly the stored team ids, each once, and empty without a `teams` map |
| `Config.ConfigManager.TeamMembers` | src/main/kotlin/work/alsace/buildContest/utils/ConfigManager.kt:119-122 | present exactly when the team is stored and its record has a member list, and then that list |
| `Config.ConfigManager.TeamName` | src/main/kotlin/work/alsace/buildContest/utils/ConfigManager.kt:130-133 | present exactly when the team is stored and its record has a name, and then that name |
| `Config.ConfigManager.TeamPort` | src/main/kotlin/work/alsace/buildContest/utils/ConfigManager.kt:140-143 | present exactly when the team is stored and its record has an Int port, and then that port |
| `Config.FirstIndexWith` | src/main/kotlin/work/alsace/buildContest/utils/ConfigManager.kt:156-161 | the position, in map order, of the first team that lists the member: every earlier team does not list it. The result is the length of the order when no team lists it |
| `Config.FirstTeamWith` | src/main/kotlin/work/alsace/buildContest/utils/ConfigManager.kt:156-161 | a found id is stored and lists the member. Nothing is found exactly when no stored team lists the member |
| `Config.ConfigManager.TeamIdByMember` | src/main/kotlin/work/alsace/buildContest/utils/ConfigManager.kt:151-162 | a found id is a stored team that lists the member |
| `Config.MemberQueriesAgree` | src/main/kotlin/work/alsace/buildContest/utils/ConfigManager.kt:151-179 | isMemberInAnyTeam holds exactly when getTeamIdByMember finds an id. The id found comes no later, in map order, than any team listing the member |
| `Config.ConfigManager.IsMemberInAnyTeam` | src/main/kotlin/work/alsace/buildContest/utils/ConfigManager.kt:170-179 | true exactly when some stored team's member list holds the member, and false without a `teams` map |
| `Config.ConfigManager.IsPortExist` | src/main/kotlin/work/alsace/buildContest/services/ContestService.kt:32 | true exactly when some stored team records the port |
| `Config.Inserted` | src/main/kotlin/work/alsace/buildContest/utils/ConfigManager.kt:190-192 | `teams[teamId] = t` on a map that may be missing: the new entry is present and the other entries are kept |
| `Config.ConfigManager.AddNewTeam` | src/main/kotlin/work/alsace/buildContest/utils/ConfigManager.kt:189-196 | writes the record under the id, replacing any earlier record. The id is appended to the order only when it is new. The data file is saved once with the new map. The getters return the new name, port and members. Every other team and the `ktor` section are unchanged |
| `Config.StoreKeepsPortsDistinct` | src/main/kotlin/work/alsace/buildContest/utils/ConfigManager.kt:189-196 | storing a record whose port no team records keeps the ports of all teams distinct |
| `Config.StoreKeepsMembersDisjoint` | src/main/kotlin/work/alsace/buildContest/utils/ConfigManager.kt:189-196 | storing a record whose members no team lists keeps every member in at most one team, also when the record replaces an earlier one |
| `Config.ConfigManager.BearerToken` | src/main/kotlin/work/alsace/buildContest/utils/ConfigManager.kt:203-206 | the stored token. There is none without a `ktor` section |
| `Config.ConfigManager.SetBearerToken` | src/main/kotlin/work/alsace/buildContest/utils/ConfigManager.kt:213-217 | like SetStartPort, for `bearer-token` |
| `Text.ReplaceAll` | src/main/kotlin/work/alsace/buildContest/utils/DockerManager.kt:91 | `content.replace(key, value)`: has no contract of its own. Its properties are stated by `Text.ReplaceAllWithoutKey`, `Text.ReplaceAllBySelf` and `Text.ReplaceAllRemovesKey` |
| `Text.ReplaceAllWithoutKey` | src/main/kotlin/work/alsace/buildContest/utils/DockerManager.kt:91 | `replace` leaves text that holds no occurrence of the key unchanged |
| `Text.ReplaceAllBySelf` | src/main/kotlin/work/alsace/buildContest/utils/DockerManager.kt:91 | replacing the key by itself is the identity |
| `Text.ReplaceAllRemovesKey` | src/main/kotlin/work/alsace/buildContest/utils/DockerManager.kt:91 | when the replacement is non-empty and shares no character with the key, no occurrence of the key is left, not even one straddling two pieces |
| `Text.Decimal` | src/main/kotlin/work/alsace/buildContest/utils/DockerManager.kt:86 | `port.toString()`: a minus sign exactly for a negative number, then digits with no leading zero, so there is no "-0" and only zero is written "0". `Text.DecimalRoundTrip` states the value |
| `Text.DecimalRoundTrip` | src/main/kotlin/work/alsace/buildContest/utils/DockerManager.kt:86 | `port.toString()` is a minus sign followed by digits, or digits alone, and it denotes the port exactly |
| `Text.Split` | src/main/kotlin/work/alsace/buildContest/commands/StartServerCommand.kt:25 | at least one segment, and no segment holds the separator |
| `Text.JoinSplit` | src/main/kotlin/work/alsace/buildContest/commands/StartServerCommand.kt:25 | joining the segments with the separator gives back the input, so empty segments are kept |
| `Text.Lower` | src/main/kotlin/work/alsace/buildContest/services/ContestService.kt:74 | same length; no capital letter remains; a capital letter becomes its small letter and every other character is kept |
| `Text.LowerIdempotent` | src/main/kotlin/work/alsace/buildContest/services/ContestService.kt:74 | folding a folded name changes nothing |
| `Text.SplitJoin` | src/main/kotlin/work/alsace/buildContest/commands/StartServerCommand.kt:25 | a non-empty list of segments that hold no separator is recovered by splitting its join |
| `Docker.Replacements` | src/main/kotlin/work/alsace/buildContest/utils/DockerManager.kt:84-87 | the `replacements` map: the name placeholder to the server name, then the port placeholder to the port's decimal text. It has no contract of its own; `Docker.RenderOrder` states the order |
| `Docker.Render` | src/main/kotlin/work/alsace/buildContest/utils/DockerManager.kt:84-92 | the `forEach` over the replacements. It has no contract of its own; `Docker.RenderOrder`, `Docker.RenderLeavesNoPortPlaceholder` and `Docker.RenderWithoutPlaceholders` state its properties, and `Docker.DockerManager.GenerateDockerCompose` is proved to compute it |
| `Docker.RenderOrder` | src/main/kotlin/work/alsace/buildContest/utils/DockerManager.kt:84-92 | the name placeholder is replaced everywhere first, and then the port placeholder in the result |
| `Docker.DecimalAvoidsPortPlaceholder` | src/main/kotlin/work/alsace/buildContest/utils/DockerManager.kt:86 | the port's decimal text shares no character with `#SERVER_PORT_PLACEHOLDER` |
| `Docker.RenderLeavesNoPortPlaceholder` | src/main/kotlin/work/alsace/buildContest/utils/DockerManager.kt:84-92 | no rendered compose file holds a port placeholder, whatever the template and the server name |
| `Docker.RenderWithoutPlaceholders` | src/main/kotlin/work/alsace/buildContest/utils/DockerManager.kt:84-92 | a template without placeholders renders to itself |
| `Docker.DockerManager.constructor` | src/main/kotlin/work/alsace/buildContest/utils/DockerManager.kt:18-21 | the manager starts with the given template and compose files and the shared journal |
| `Docker.DockerManager.GenerateDockerCompose` | src/main/kotlin/work/alsace/buildContest/utils/DockerManager.kt:60-97 | without a template it returns at once and leaves the target alone. It throws exactly when a file operation that runs fails. Without failure the target holds the rendered template. The replacement loop computes exactly the rendering |
| `Docker.DockerManager.StartWithDockerCompose` | src/main/kotlin/work/alsace/buildContest/utils/DockerManager.kt:104-136 | true exactly when the process exits with code 0. Every exception gives false. A launched process is logged as `up` under the server name as project, on the current compose file |
| `Docker.DockerManager.StartContainer` | src/main/kotlin/work/alsace/buildContest/utils/DockerManager.kt:30-50 | true exactly when rendering threw nothing and `up` exited with 0. An IOException while rendering runs no process. A missing template still runs `up` |
| `Docker.DockerManager.StopContainer` | src/main/kotlin/work/alsace/buildContest/utils/DockerManager.kt:144-165 | true exactly when `down` exits with 0, and false on any exception. The command names no project |
| `Contest.Inc32` | src/main/kotlin/work/alsace/buildContest/services/ContestService.kt:27 | `nextAvailablePort++` is an addition of one modulo 2^32, and it increases every value but Int.MAX_VALUE |
| `Contest.ContestService.constructor` | src/main/kotlin/work/alsace/buildContest/services/ContestService.kt:14-18 | the cursor starts at the stored `port-start` (30000 by default), no call has been made yet, and the proxy is the one given |
| `Contest.Proxy.constructor` | src/main/kotlin/work/alsace/buildContest/services/ContestService.kt:15 | the registry starts with the servers the proxy already holds |
| `Contest.Proxy.RegisterServer` | src/main/kotlin/work/alsace/buildContest/services/ContestService.kt:74 | refused exactly when a server of the same name, ignoring letter case, is registered with other information; then nothing changes. Otherwise the name maps to the new information, which leaves an identical registration as it was |
| `Contest.RegisteredNameRefusesOtherPort` | src/main/kotlin/work/alsace/buildContest/services/ContestService.kt:72-76 | after a route for a name is registered, the same name in any letter case is refused for every other port, and the identical route is accepted again |
| `Contest.ContestService.NextAvailablePort` | src/main/kotlin/work/alsace/buildContest/services/ContestService.kt:25-42 | a returned port is the least port from the incremented cursor up to 65535 that no stored team records. It becomes the cursor and the stored `port-start`. When every such port is taken, the exception is thrown with the cursor advanced by one and nothing saved. Teams are never touched |
| `Contest.ContestService.RegisterServerToVelocity` | src/main/kotlin/work/alsace/buildContest/services/ContestService.kt:72-76 | a port outside 0..65535 makes `InetSocketAddress` throw. A port in range whose name the proxy holds with another address makes the proxy throw. In both cases neither the registry nor the journal changes. Otherwise the registry maps the name to `127.0.0.1:port` and exactly one route event is logged |
| `Contest.ContestService.Commit` | src/main/kotlin/work/alsace/buildContest/services/ContestService.kt:55-57 | the route is registered, then the team is stored and saved, in that order. When the route throws, for a refused address or a refused name, the exception leaves before the team is stored, and nothing changes. Stored ports stay distinct when the port was free |
| `Contest.ContestService.Provision` | src/main/kotlin/work/alsace/buildContest/services/ContestService.kt:53-63 | false exactly when rendering threw or `up` did not exit with 0, and then nothing is committed. After a clean start, a port outside 0..65535 ends in the address exception (InvalidAddress), and a name the proxy holds with another address ends in the proxy's exception (NameTaken); in both the team is not stored and the registry is unchanged. Every other case ends in true, with the name registered at the port, the route and then the save as the last two effects, the team inserted, and its id appended to the order unless it was already stored |
| `Contest.ContestService.CreateAndRegisterServer` | src/main/kotlin/work/alsace/buildContest/services/ContestService.kt:51-64 | NoPortAvailable exactly when every port in range is taken. Otherwise the least free port is consumed even if the start fails. The result is false exactly when rendering threw or `up` did not exit with 0. After a clean start, a port outside 0..65535 (a wrapped or negative cursor) ends in the address exception (InvalidAddress), and a name the proxy already holds with another address ends in the proxy's exception (NameTaken). So re-creating an id that was created earlier in the session, which always gets a new port, throws after `up` has run, with the record and the route left on the old port. On false or on any exception no route is registered and the team map and the registry are unchanged. On true the registry maps the id to the new port. On true the last two effects are the route and then the save of the new map, the team reads back, and its id is appended to the team order unless it was already stored. Ports stay distinct among stored teams |
| `TeamController.ParseRequest` | src/main/kotlin/work/alsace/buildContest/ktor/controller/TeamContorller.kt:22-28 | a request is read exactly when `teamId` and `teamName` are strings and `members` is a list, and it carries those values |
| `TeamController.ParseBodyOf` | src/main/kotlin/work/alsace/buildContest/ktor/controller/TeamContorller.kt:22-28 | a request written as a body is read back, whatever other keys the body holds |
| `TeamController.FirstRejected` | src/main/kotlin/work/alsace/buildContest/ktor/controller/TeamContorller.kt:33-38 | the position of the first member the check rejects: every earlier member passes it. The result is the length of the list when none is rejected |
| `TeamController.Answer` | src/main/kotlin/work/alsace/buildContest/ktor/controller/TeamContorller.kt:41-45 | 200 exactly when the service returned true, 500 exactly when it returned false. The three exceptions of the service (no free port, a refused socket address, a refused name) leave the handler |
| `TeamController.Handle` | src/main/kotlin/work/alsace/buildContest/ktor/controller/TeamContorller.kt:20-46 | bad fields give 400 "Invalid input data" and change nothing. The first rejected member gives 400 "Member m is exist!" and changes nothing. Otherwise the service is called exactly once with the request's values, and the answer follows its result. So there is at most one call per request |
| `TeamController.AddTeam` | src/main/kotlin/work/alsace/buildContest/ktor/controller/TeamContorller.kt:20-46 | the handler as written: the member rejected is the first one that is in no team. The service is reached only when every member is already in some team |
| `TeamController.AddTeamCorrected` | src/main/kotlin/work/alsace/buildContest/ktor/controller/TeamContorller.kt:20-46 | the intended handler: the member rejected is the first one already in a team. The service is reached only when no member is in any team, and no member is then listed by two teams |
| `TeamController.InvertedMemberCheck` | src/main/kotlin/work/alsace/buildContest/ktor/controller/TeamContorller.kt:34 | with `alice` in team `t1`, `[alice]` passes the written check and `[carol]` is rejected. Storing `[alice]` as a second team puts `alice` in two teams |
| `Commands.ParseCreate` | src/main/kotlin/work/alsace/buildContest/commands/StartServerCommand.kt:18-25 | accepted exactly when there are four arguments and the first is `create`. The id and name are the second and third, and the members are comma-free segments whose join is the fourth |
| `Commands.ParseCreateOfCommandLine` | src/main/kotlin/work/alsace/buildContest/commands/StartServerCommand.kt:18-25 | the command line for a team parses back to that team, for any non-empty list of comma-free member names |
| `Commands.Execute` | src/main/kotlin/work/alsace/buildContest/commands/StartServerCommand.kt:14-35 | bad arguments send only the usage text and call nothing. Otherwise the service is called exactly once with the second and third arguments and the split fourth. The one message sent reflects the Boolean returned. An exception of the service leaves the command with no message |
| `Commands.Reply` | src/main/kotlin/work/alsace/buildContest/commands/StartServerCommand.kt:30-34 | the two messages. It has no contract of its own; `Commands.Execute` states which one is sent |

## Left out

Name-based qualifications:

- `Config.ConfigManager.TeamIdByMember`: its own contract states only that a found id lists the member. That nothing is found exactly when no team lists it, and that the id found is the first, are stated by `Config.MemberQueriesAgree` and `Config.FirstTeamWith`.

- `Config.ConfigManager.constructor`: the save of the filled-in token is taken to succeed. In the source an IOException from `saveConfig` leaves the constructor.
- `Config.ConfigManager.SetStartPort`: the save is taken to succeed. In the source a failing `saveConfig` throws an IOException that nothing catches, after the value has changed in memory.
- `Config.ConfigManager.SetBearerToken`: the save is taken to succeed, as for SetStartPort.
- `Config.ConfigManager.AddNewTeam`: the save is taken to succeed. In the source a failing save throws with the team already in memory.
- `Contest.ContestService.NextAvailablePort`: the save of `port-start` is taken to succeed. In the source a failing save throws with the cursor already moved.
- `Contest.ContestService.CreateAndRegisterServer`: the save of the team is taken to succeed. In the source a failing save throws with the route registered and the team only in memory.
- `Docker.DockerManager.StopContainer`: `ComposeDown` names the compose file the model holds. The source runs `down` with the plugin directory as working directory and the `-f` path `plugins/BuilderContest/docker-compose.yml`, which is relative to the proxy's working directory (BuildContest.kt, which is not part of this model, sets it up). Run from the plugin directory, `down` therefore opens `plugins/BuilderContest/plugins/BuilderContest/docker-compose.yml`. This path resolution is not modelled. Also, `up` runs with `-p <serverName>` while `down` names no project, so `down` acts on docker-compose's default project for that file rather than on the team's project; the model records only that `down` ran on the compose file.

Outside the model:

- The YAML files are not modelled.
  - Loading, creating, copying the default resource and saving are outside the model.
  - Each save is a `SavedConfig` or `SavedData` event carrying the whole section or map.
  - The constructor receives the loaded contents as parameters.
- Values of the wrong type are modelled only partly.
  - A `ktor` key holding a value of the wrong type reads as absent.
  - A `teams` value that is not a map is not modelled, nor is the ClassCastException `addNewTeam` would then raise.
  - A member list holding non-strings is not modelled, because `as? List<String>` does not check elements.
- The body `call.receive<Map<String, Any>>()` is taken as already decoded.
  - A JSON list is taken to hold strings.
  - A body that is not a JSON object, and the 400 that Ktor then sends, are not modelled.
- `TokenManager.generateRandomToken` is randomness. The constructor receives its result as a parameter.
- `isPortExist` is called but not defined in the source. It is taken to be "the port is a value of getTeamIdPortMap()".
- The file operations of `generateDockerCompose` and the `docker-compose` processes are outside the model.
  - Their outcomes are the parameters `FileIo` and `ProcessRun`.
  - A failing file operation is taken to have no effect, while the operations before it have taken place.
  - The process output and the working directory are not modelled.
  - A `docker-compose` process that never exits is not modelled. `waitFor()` has no timeout, and no `ProcessRun` value stands for a hang.
- Velocity's `registerServer` is an external call. It is modelled by `Contest.Proxy`: a registry keyed by the folded name, a `RegisteredServer` event, and the refusal of a name held with other information.
- `Text.Lower`: folds only ASCII capitals. The proxy folds with `toLowerCase(Locale.US)`, which also folds non-ASCII letters, so two names that differ only in a non-ASCII letter's case are kept apart in the model.
- `Contest.Proxy.constructor`: the servers of the proxy's own configuration are a parameter; their loading is outside the model.
- Logging is not modelled.
- Concurrency is not modelled. The source has no locking, and every operation is modelled as running alone.
- Application.kt (the Ktor server and the bearer authentication), BuildContest.kt (the wiring), PlayerListener.kt and FieldValidator.kt are not part of this model.
- Documented behaviour that the code does not have:
  - `addNewTeam` overwrites an existing id instead of rejecting it, and the model follows the code.
  - Stored teams are not re-registered with the proxy at startup.

## Findings

| source | as written | input that shows it | evidently intended | confidence | as-written member | corrected member |
|---|---|---|---|---|---|---|
| src/main/kotlin/work/alsace/buildContest/ktor/controller/TeamContorller.kt:34 | the request is rejected with "Member m is exist!" when `m` is in NO team | `alice` in team `t1`; a request with members `[alice]` passes and is stored as a second team, while a request with `[carol]` is rejected | reject a member who is already in a team, as the message says, so that no member belongs to two teams | not executed | `TeamController.AddTeam`, with `TeamController.InvertedMemberCheck` | `TeamController.AddTeamCorrected`, with `Config.StoreKeepsMembersDisjoint` |
