# Game-server bot core, modelled in Dafny

A Discord bot starts and stops one EC2 instance that runs a Minecraft
server, reports how to connect to it, and lets its owner send console
commands. This project models the decision logic of that bot and proves
what it promises:

- **The EC2 lifecycle controller** (`Ec2` module, `ec2_server_manager.dfy`).
  A six-entry table maps EC2 state names to `ServerState`, ignoring case.
  The state read turns every failure into `UNKNOWN`. `Start` needs
  `STOPPED` and `Stop` needs `RUNNING`; otherwise they fail with a
  BadRequest and send no transition command. `GetConnection` adds the host
  and the fixed port 25565 only when the state is `RUNNING`.
  The EC2 SDK client is the class `Ec2Client`. Its fields hold what EC2
  answers to each of the four commands the controller sends: a failure, or
  the one optional string the controller reads. A ghost log `sent` records
  every command. Each controller method is tied to a pure function of those
  answers (`ObservedState`, `StartOutcome`, `StartCommands`, `StopOutcome`,
  `StopCommands`, `ConnectionOutcome`, `ConnectionCommands`). The lemmas
  below the class are proved about those functions.
- **Role authorization** (`Authorization`, `auth.dfy`; `DiscordAuthorization`,
  `discord_auth.dfy`). The roles are ranked OWNER 0, ADMIN 1, USER 2,
  NONE 3. A role claim that is not exactly one of the four names counts as
  NONE. The Discord authenticator maps a user ID through a fixed table to a
  role claim.
- **Use cases** (`ExecuteServerCommand`, `StartServer`, `StopServer`).
  Executing a command takes the OWNER role. The output lines are joined
  with `\n` and cut to the last 1024 characters. Start and stop report only
  whether the controller call returned normally.

Shared types live in `errors.dfy` (`Option`, `Result`, `Outcome`, the error
kinds) and `server_manager.dfy` (`ServerState`, `ServerConnection`).

Messages are kept verbatim, including the misspelling "cannnot" in the
BadRequest messages and the Portuguese Forbidden message.

In three places the code behaves differently from what its interfaces suggest, and the model follows the code:
- A state name outside the table during the state read gives `UNKNOWN`.
  The mapper is called inside the `try`, so its error is caught. The same
  error does propagate from `start` and `stop`, which call it outside any
  `try`.
- The connection carries `host` and `port` separately. The `address` field
  of the `ServerConnection` interface is never set.
- The error kinds are the http-errors classes the code throws:
  BadRequest, InternalServerError and Forbidden.

## Model

| member | source | states |
|---|---|---|
| `ServerManager.StateName` | packages/bot/src/application/server-manager.ts:1-9 | every state has a non-empty string value |
| `ServerManager.StateNameInjective` | packages/bot/src/application/server-manager.ts:1-9 | two states have the same string value only if they are the same state, so a message naming the state identifies it |
| `Ec2.Lower` | packages/bot/src/infrastructure/ec2-server-manager.ts:31 | lower-casing keeps the length and folds each character on its own |
| `Ec2.Upper` | packages/bot/src/infrastructure/ec2-server-manager.ts:31 | upper-casing keeps the length and works character by character; it is used to state case-insensitivity |
| `Ec2.Ec2Label` | packages/bot/src/infrastructure/ec2-server-manager.ts:22-29 | every state except UNKNOWN has a key in the table that maps back to it |
| `Ec2.MapInstanceState` | packages/bot/src/infrastructure/ec2-server-manager.ts:21-38 | a state comes back exactly when a name is present and its lower case is a table key; UNKNOWN never comes back; every miss is InternalServerError("Instance state not found") |
| `Ec2.MapInstanceStateIff` | packages/bot/src/infrastructure/ec2-server-manager.ts:21-37 | a name selects state s exactly when s is not UNKNOWN and the lower-cased name is the EC2 name of s |
| `Ec2.MapInstanceStateAnyCase` | packages/bot/src/infrastructure/ec2-server-manager.ts:21-37 | any mix of upper and lower case of an EC2 name selects the same state |
| `Ec2.MapInstanceStateUpperCase` | packages/bot/src/infrastructure/ec2-server-manager.ts:21-37 | the all-capitals spelling of each of the six names selects its state |
| `Ec2.MapInstanceStateExample` | packages/bot/src/infrastructure/ec2-server-manager.ts:21-37 | "RUNNING" gives RUNNING and "Shutting-Down" gives SHUTTING_DOWN |
| `Ec2.MapInstanceStateRejects` | packages/bot/src/infrastructure/ec2-server-manager.ts:31-35 | an absent name, the empty name and any name outside the table give InternalServerError |
| `Ec2.ObservedStateIff` | packages/bot/src/infrastructure/ec2-server-manager.ts:40-54 | the state read is UNKNOWN exactly when the call fails, the status entry or name is missing, or the name is unmapped; otherwise it is the mapped state |
| `Ec2.Ec2Client.Send` | packages/bot/src/infrastructure/ec2-server-manager.ts:42-47 | a command gets the answer EC2 gives to that kind of command and is appended to the log of sent commands |
| `Ec2.Ec2ServerManager.constructor` | packages/bot/src/infrastructure/ec2-server-manager.ts:14-19 | the controller keeps the instance ID and the EC2 client |
| `Ec2.Ec2ServerManager.GetInstanceState` | packages/bot/src/infrastructure/ec2-server-manager.ts:40-54 | returns the state read, never an error, and sends exactly one DescribeInstanceStatus for the instance with IncludeAllInstances set |
| `Ec2.Ec2ServerManager.Start` | packages/bot/src/infrastructure/ec2-server-manager.ts:56-71 | returns StartOutcome and sends the StartCommands; on a BadRequest only the status read was sent |
| `Ec2.Ec2ServerManager.Stop` | packages/bot/src/infrastructure/ec2-server-manager.ts:73-88 | returns StopOutcome and sends the StopCommands; on a BadRequest only the status read was sent |
| `Ec2.Ec2ServerManager.GetConnection` | packages/bot/src/infrastructure/ec2-server-manager.ts:90-106 | returns ConnectionOutcome and sends the ConnectionCommands |
| `Ec2.StartRejectedUnlessStopped` | packages/bot/src/infrastructure/ec2-server-manager.ts:57-63 | start fails with a BadRequest exactly when the state read is not STOPPED, UNKNOWN included; the message names that state and no StartInstances is sent |
| `Ec2.StartFromStopped` | packages/bot/src/infrastructure/ec2-server-manager.ts:65-70 | from STOPPED exactly one StartInstances for the instance is sent; the result is the mapped CurrentState name, and a failed call, an absent name or an unmapped name propagate as errors |
| `Ec2.StartSucceedsIff` | packages/bot/src/infrastructure/ec2-server-manager.ts:56-71 | start returns a state exactly when the state read is STOPPED and the answer names a known state; that state is never UNKNOWN |
| `Ec2.StopRejectedUnlessRunning` | packages/bot/src/infrastructure/ec2-server-manager.ts:74-80 | stop fails with a BadRequest exactly when the state read is not RUNNING; the message names that state and no StopInstances is sent |
| `Ec2.StopFromRunning` | packages/bot/src/infrastructure/ec2-server-manager.ts:82-87 | from RUNNING exactly one StopInstances for the instance is sent; the result is the mapped CurrentState name, and failures propagate |
| `Ec2.StopSucceedsIff` | packages/bot/src/infrastructure/ec2-server-manager.ts:73-88 | stop returns a state exactly when the state read is RUNNING and the answer names a known state; that state is never UNKNOWN |
| `Ec2.RestartBeforeStoppedRejected` | packages/bot/src/infrastructure/ec2-server-manager.ts:57-63 | after a start that returned PENDING or RUNNING, a second start that reads that state is rejected and sends no StartInstances |
| `Ec2.ConnectionWhenNotRunning` | packages/bot/src/infrastructure/ec2-server-manager.ts:91-95 | unless the state read is RUNNING the connection is just that state, with no host and no port, and no DescribeInstances is sent |
| `Ec2.ConnectionWhenRunning` | packages/bot/src/infrastructure/ec2-server-manager.ts:97-105 | when RUNNING the connection has port "25565", the public IP EC2 reports as host (possibly absent) and state RUNNING; a failed DescribeInstances propagates |
| `Ec2.ConnectionEndpointOnlyWhenRunning` | packages/bot/src/infrastructure/ec2-server-manager.ts:90-106 | a connection always carries the state read; it has a port exactly when that state is RUNNING, and a host only then |
| `Ec2.ConnectionExample` | packages/bot/src/infrastructure/ec2-server-manager.ts:97-105 | a running instance at 203.0.113.5 gives host 203.0.113.5, port 25565, state RUNNING |
| `Authorization.ParseRole` | packages/bot/src/application/auth.ts:29-33 | a claim value is recognised only as the role of exactly that name; an unrecognised value is no role's name |
| `Authorization.ParseRoleIff` | packages/bot/src/application/auth.ts:29-33 | a value parses to role r exactly when it is the name of r |
| `Authorization.Auth.AssertRoleOrHigher` | packages/bot/src/application/auth.ts:38-42 | passes exactly when HasRoleOrHigher holds, and otherwise fails with Forbidden and its fixed message |
| `Authorization.RoleOrderIsTotal` | packages/bot/src/application/auth.ts:17-22 | ranks are OWNER 0, ADMIN 1, USER 2, NONE 3; distinct roles have distinct ranks; OWNER is strongest and NONE weakest |
| `Authorization.PrincipalRoleIff` | packages/bot/src/application/auth.ts:27-33 | the resolved role is r (other than NONE) exactly when the claim under the configured role key is r's name |
| `Authorization.UnrecognisedClaimIsNone` | packages/bot/src/application/auth.ts:29-33 | an absent claim or a value outside the four names resolves to NONE and passes no requirement stronger than NONE |
| `Authorization.LowerCaseOwnerIsNone` | packages/bot/src/application/auth.ts:29-33 | the claim "owner" resolves to NONE |
| `Authorization.OwnerRequiresOwnerClaim` | packages/bot/src/application/auth.ts:26-35 | the OWNER requirement is passed exactly when the role claim is "OWNER" |
| `Authorization.NoneAdmitsEveryone` | packages/bot/src/application/auth.ts:17-35 | every principal passes the NONE requirement |
| `Authorization.HasRoleOrHigherMonotonic` | packages/bot/src/application/auth.ts:35 | passing a requirement implies passing every weaker one |
| `Authorization.OwnRoleThreshold` | packages/bot/src/application/auth.ts:35 | a principal claiming r passes a requirement exactly when the requirement is r or weaker; so each role passes its own |
| `Authorization.OnlyRoleClaimMatters` | packages/bot/src/application/auth.ts:24-27 | two principals that agree on the claim under the configured role key get the same decision, whatever their other claims |
| `DiscordAuthorization.ExtractPrincipal` | packages/bot/src/infrastructure/discord-auth.ts:27-32 | the principal carries exactly the claims ROLE and USER_ID |
| `DiscordAuthorization.UserDataFallback` | packages/bot/src/infrastructure/discord-auth.ts:14-16 | the identity is the interaction's user, else the guild member's user, else absent |
| `DiscordAuthorization.RoleTableShape` | packages/bot/src/infrastructure/discord-auth.ts:21-25 | exactly one ID in the table is OWNER, exactly two are ADMIN, and no other role appears |
| `DiscordAuthorization.UserIdClaim` | packages/bot/src/infrastructure/discord-auth.ts:30 | USER_ID is the user's ID, or "" when there is no user |
| `DiscordAuthorization.RoleClaimFromTable` | packages/bot/src/infrastructure/discord-auth.ts:21-29 | an ID in the table gets its role's name; an unknown or missing ID gets "NONE" and passes no requirement stronger than NONE |
| `DiscordAuthorization.ExtractedRoleIsRecognised` | packages/bot/src/infrastructure/discord-auth.ts:7-29 | the ROLE claim sits under the key DiscordAuth reads and is always one of the four names, so the resolved role is the table's role or NONE |
| `DiscordAuthorization.OwnerGateIffOwnerId` | packages/bot/src/infrastructure/discord-auth.ts:7-29 | an extracted principal passes the OWNER requirement exactly when the user is the owner's ID |
| `DiscordAuthorization.AdminGateIffListed` | packages/bot/src/infrastructure/discord-auth.ts:21-29 | an extracted principal passes the ADMIN requirement exactly when its ID is in the table |
| `ExecuteServerCommand.LastOutput` | packages/bot/src/application/use-cases/execute-server-command.ts:24 | the result is the suffix of the text of length min(length, 1024) |
| `ExecuteServerCommand.JoinLength` | packages/bot/src/application/use-cases/execute-server-command.ts:24 | joined length is the lines' total length plus one separator between each pair of neighbours |
| `ExecuteServerCommand.SingleCharLinesLength` | packages/bot/src/application/use-cases/execute-server-command.ts:24 | n one-character lines join to 2n - 1 characters |
| `ExecuteServerCommand.ForbiddenWithoutSending` | packages/bot/src/application/use-cases/execute-server-command.ts:21-22 | without OWNER the result is Forbidden and the same for every command channel, so the channel is never consulted |
| `ExecuteServerCommand.ExecuteSucceedsIffOwner` | packages/bot/src/application/use-cases/execute-server-command.ts:20-26 | execution succeeds exactly when the OWNER check passes; the only error is Forbidden |
| `ExecuteServerCommand.CommandForwardedUnchanged` | packages/bot/src/application/use-cases/execute-server-command.ts:22 | the result depends on the channel only through its answer to the command exactly as given |
| `ExecuteServerCommand.OutputBounded` | packages/bot/src/application/use-cases/execute-server-command.ts:24 | the output is at most 1024 characters long |
| `ExecuteServerCommand.ShortOutputUnchanged` | packages/bot/src/application/use-cases/execute-server-command.ts:24 | a newline-join of at most 1024 characters is the output exactly |
| `ExecuteServerCommand.LongOutputIsSuffix` | packages/bot/src/application/use-cases/execute-server-command.ts:24 | a longer join gives an output of exactly 1024 characters that ends the join |
| `ExecuteServerCommand.EmptyOutput` | packages/bot/src/application/use-cases/execute-server-command.ts:24 | no output lines give "" and no error |
| `ExecuteServerCommand.TruncationCountsCharacters` | packages/bot/src/application/use-cases/execute-server-command.ts:24 | more than 512 one-character lines already give exactly 1024 characters: the cut counts characters, not lines |
| `ExecuteServerCommand.DiscordExecuteIffOwner` | packages/bot/src/application/use-cases/execute-server-command.ts:21 | through the Discord authenticator only the owner's ID can execute |
| `ExecuteServerCommand.NoneClaimForbidden` | packages/bot/src/application/use-cases/execute-server-command.ts:21-22 | a principal whose role claim is "NONE" gets Forbidden |
| `StartServer.SuccessIffStartReturned` | packages/bot/src/application/use-cases/start-server.ts:17-23 | success is true exactly when start returned normally; every error gives false, and execute itself has no error path |
| `StartServer.OutcomeDetailDiscarded` | packages/bot/src/application/use-cases/start-server.ts:16-19 | the state start returned, the kind of error and the input do not affect the output |
| `StartServer.SuccessIffControllerStarts` | packages/bot/src/application/use-cases/start-server.ts:17-23 | with the EC2 controller, success holds exactly when the state read is STOPPED and StartInstances names a known state; a rejected start reports false |
| `StopServer.SuccessIffStopReturned` | packages/bot/src/application/use-cases/stop-server.ts:17-23 | success is true exactly when stop returned normally; every error gives false, and execute itself has no error path |
| `StopServer.OutcomeDetailDiscarded` | packages/bot/src/application/use-cases/stop-server.ts:16-19 | the state stop returned, the kind of error and the input do not affect the output |
| `StopServer.SuccessIffControllerStops` | packages/bot/src/application/use-cases/stop-server.ts:17-23 | with the EC2 controller, success holds exactly when the state read is RUNNING and StopInstances names a known state; a rejected stop reports false |

## Left out

- Lower: folds only the ASCII letters, where JavaScript's `toLowerCase` folds all of Unicode. The table's answer is the same either way. All six keys use only `a`-`z` and `-`. The only non-ASCII characters whose lower case contains an ASCII letter are U+212A (to `k`) and U+0130 (to `i` followed by U+0307). No key contains `k` or U+0307.
- LastOutput: counts Unicode characters, while JavaScript's `slice` counts UTF-16 code units. The two differ only for characters outside the Basic Multilingual Plane.
- The EC2 service itself: the client's fields say what EC2 answers, not how the instance moves from state to state after a start or stop. The AWS region and the construction of the SDK client are left out; the client is passed in.
- EC2 responses are reduced to the one field the code reads. A missing first entry, a missing nested object and a missing name all become one absent value.
- JavaScript lookup quirks: `stateMap`, `userRoleMap` and `claims` are plain objects, so a key such as "constructor" finds an inherited property. The model uses finite maps.
- Claim values other than strings, which `String(...)` would convert: claims are modelled as strings.
- Asynchrony and the check-then-act race between the state read and the start or stop command: each operation is one sequential run.
- Logging in the start and stop use cases.
- `getStatus`, the liveness probe and the status snapshot (`ServerApplicationStatus`, `ServerStatus`): declared by the `ServerManager` interface but implemented nowhere in the code modelled. So is the get-server-status use case, which only calls `getStatus`.
- `sendCommand`: declared but implemented nowhere; the command channel is a function from the command to its output lines.
- The get-server-connection use case: it only returns `getConnection`'s result.
- The Lambda and Discord transport, command registration, and the infrastructure definitions.
