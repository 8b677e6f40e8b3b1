# Pioneer WebSocket subscription layer in Dafny

This project models two pieces of Pioneer, a GraphQL server library for Swift, that
carry GraphQL operations over a WebSocket sub-protocol:

- **The per-frame handlers** (`Pioneer.onMessage`, `onEnd` and the guard of
  `setInterval`, in `websocket.dfy`, module `WebSocket`). One inbound text frame
  becomes an ordered list of effects. An effect is one of: send a message to the
  client; give a command to the `Probe` actor; acknowledge the handshake; cancel
  the keep-alive task; close the socket with a status code. The handler's inputs
  are: whether the text is valid UTF-8, the intent the sub-protocol parser
  returned, and the introspection check `allowed(from:)`. That check answers true
  or false, or it throws.
- **The `Probe` actor** (`probe.dfy`, module `Actor`). This is the registry of
  connected clients, a map from connection id to `Process`. It handles the
  commands `connect`, `disconnect`, `start`, `once`, `stop` and `outgoing`. The
  actor serialises its mailbox, so one command is one atomic step. The actor is
  modelled twice:
  - as pure functions over a `State` value (`Step`, `Run`), which the lemmas are about;
  - as the class `Actor.Probe`, whose methods update `clients` and the log of
    sent messages in place and are proved to agree with `Step`.
  The asynchronous `pipeToSelf` of `once` is a separate, later `outgoing`
  command. `Piped` builds that command from the execution's success or failure.

`messages.dfy` (module `Messages`) holds the values the two share: processes,
GraphQL requests, results and errors, and protocol messages.

The lemmas at the end of `websocket.dfy` link the two pieces. They run a frame's
actor commands through `Actor.Run` and state what the frame does to the registry.
For example, a valid-UTF-8 frame that closes the connection (`terminate`, `fatal`) also deregisters it. A frame
on one connection never changes another connection's entry.

### Where the code differs from the library's intended design

This model follows the code as written:

- `connect` overwrites an existing entry for the same id. It is not rejected.
- `disconnect` only removes the entry. Operations are not tracked, so none is cancelled.
- `start` and `stop` are unimplemented in the code and change nothing.
- A `once` result is delivered to the process captured when the operation
  started. This happens even if that process disconnected in the meantime
  (`Actor.OnceAnsweredOnce`).
- A frame that is not valid UTF-8 is closed with 1003 without deregistering the
  process. The close callback (`onEnd`) deregisters it later.

## Model

| member | source | states |
|---|---|---|
| `WebSocket.OnMessage` | Sources/Pioneer/WebSocket/Pioneer+WebSocket.swift:61-144 | text that is not UTF-8 yields only a 1003 close. Any close is the last effect. Every actor command concerns this connection and is never an `outgoing`. The handler itself only sends error or keep-alive messages. Every close other than 1003 is preceded by a disconnect of this connection and by the keep-alive cancel, if a task exists |
| `WebSocket.NotTextClosesOnly` | Sources/Pioneer/WebSocket/Pioneer+WebSocket.swift:62-67 | for non-UTF-8 text the effects do not depend on the intent or the introspection check, so the parser is never consulted. They hold exactly one close, 1003, and no send or actor command |
| `WebSocket.InitialConnects` | Sources/Pioneer/WebSocket/Pioneer+WebSocket.swift:74-76 | `initial` is `connect(process)` followed by the acknowledgement. Nothing is sent and nothing is closed |
| `WebSocket.PingKeepsAlive` | Sources/Pioneer/WebSocket/Pioneer+WebSocket.swift:79-80 | `ping` sends exactly the keep-alive message. There is no actor command and no close |
| `WebSocket.TerminateTearsDown` | Sources/Pioneer/WebSocket/Pioneer+WebSocket.swift:83-86 | `terminate` is, in order: disconnect(process.id), the keep-alive cancel, close 1001. Nothing is sent |
| `WebSocket.OperationGuarded` | Sources/Pioneer/WebSocket/Pioneer+WebSocket.swift:89-116 | for `start` and `once`, the whole effect list is the matching actor command when the check returns true, and otherwise exactly one rejection tagged with the operation id (a false answer or a throw). So the actor is called if and only if the check returns true, and there is never a close |
| `WebSocket.StopForwards` | Sources/Pioneer/WebSocket/Pioneer+WebSocket.swift:119-123 | the whole effect list of `stop` is the one actor command `stop(process.id, oid)`. Nothing is sent or closed |
| `WebSocket.ErrorReported` | Sources/Pioneer/WebSocket/Pioneer+WebSocket.swift:126-128 | the whole effect list of `error` is one error message with that id and that text. It never disconnects or closes |
| `WebSocket.FatalTearsDown` | Sources/Pioneer/WebSocket/Pioneer+WebSocket.swift:132-139 | `fatal` is, in order: an error message with no id, disconnect(process.id), the keep-alive cancel, close 1008 |
| `WebSocket.IgnoreInert` | Sources/Pioneer/WebSocket/Pioneer+WebSocket.swift:141-142 | `ignore` has no effect |
| `WebSocket.OnEnd` | Sources/Pioneer/WebSocket/Pioneer+WebSocket.swift:147-152 | the close handler disconnects the pid and cancels the keep-alive task, if a task exists. It does nothing else |
| `WebSocket.OnEndQuiet` | Sources/Pioneer/WebSocket/Pioneer+WebSocket.swift:147-152 | the close handler sends nothing and closes nothing. Its only actor command is disconnect(pid) |
| `WebSocket.SetInterval` | Sources/Pioneer/WebSocket/Pioneer+WebSocket.swift:156-160 | there is a keep-alive task if and only if a delay is given |
| `WebSocket.FrameSendsNothingViaActor` | Sources/Pioneer/WebSocket/Pioneer+WebSocket.swift:69-143 | running a frame's actor commands never adds to the actor's sent log |
| `WebSocket.FrameIsolated` | Sources/Pioneer/WebSocket/Pioneer+WebSocket.swift:69-143 | a frame on one connection leaves every other connection's registry entry unchanged |
| `WebSocket.InitialRegisters` | Sources/Pioneer/WebSocket/Pioneer+WebSocket.swift:74-75 | after `initial` the registry holds the old entries plus this process under its id |
| `WebSocket.ClosingDeregisters` | Sources/Pioneer/WebSocket/Pioneer+WebSocket.swift:83-139 | every valid-UTF-8 frame that closes the connection (`terminate`, `fatal`) also leaves it unregistered |
| `WebSocket.OnEndDeregisters` | Sources/Pioneer/WebSocket/Pioneer+WebSocket.swift:147-152 | after the close handler's command, the pid is unregistered and nothing was sent |
| `Actor.Registered` | Sources/Pioneer/WebSocket/Actor/Probe.swift:34-39 | only connect and disconnect of a pid change that pid's entry. After `connect(p)`, `p.id` maps to `p`. After `disconnect(pid)`, `pid` is absent. Every client stays filed under its own id |
| `Actor.Reply` | Sources/Pioneer/WebSocket/Actor/Probe.swift:53-63 | the reply is a `next` with the operation's id. On success it carries the result. On failure it carries no data and exactly one error, the failure's description |
| `Actor.Piped` | Sources/Pioneer/WebSocket/Actor/Probe.swift:52-64 | the piped command is an `outgoing` for the same id and process, carrying a `next` message |
| `Actor.ConnectOverwrites` | Sources/Pioneer/WebSocket/Actor/Probe.swift:34-35 | a second `connect` under the same id replaces the first process |
| `Actor.DisconnectIdempotent` | Sources/Pioneer/WebSocket/Actor/Probe.swift:38-39 | disconnecting twice is the same as disconnecting once |
| `Actor.OperationsLeaveState` | Sources/Pioneer/WebSocket/Actor/Probe.swift:42-69 | `start`, `stop` and `once` change neither the client map nor the sent log |
| `Actor.OnceUnregisteredInert` | Sources/Pioneer/WebSocket/Actor/Probe.swift:48 | `once` for an unregistered pid starts no pipe and changes nothing |
| `Actor.RunExtendsLog` | Sources/Pioneer/WebSocket/Actor/Probe.swift:31-78 | over any mailbox, the sent log only grows. It grows by two messages per `outgoing` and by none for any other command |
| `Actor.RunFrame` | Sources/Pioneer/WebSocket/Actor/Probe.swift:31-78 | a mailbox that never connects or disconnects a pid leaves that pid's entry as it was |
| `Actor.RunKeepsKeyed` | Sources/Pioneer/WebSocket/Actor/Probe.swift:34-39 | over any mailbox, every client stays filed under its own id |
| `Actor.OnceAnsweredOnce` | Sources/Pioneer/WebSocket/Actor/Probe.swift:47-74 | a `once` for a registered pid is answered on that client by exactly one `next` and then one `complete` for its id. This holds on success and on failure, whatever commands ran in between |
| `Actor.Probe.constructor` | Sources/Pioneer/WebSocket/Actor/Probe.swift:29 | the actor starts with no clients and nothing sent |
| `Actor.Probe.Connect` | Sources/Pioneer/WebSocket/Actor/Probe.swift:34-35 | the new map is the old one with `process.id` set to `process`. Nothing is sent |
| `Actor.Probe.Disconnect` | Sources/Pioneer/WebSocket/Actor/Probe.swift:38-39 | the new map is the old one without `pid`. Nothing is sent |
| `Actor.Probe.Start` | Sources/Pioneer/WebSocket/Actor/Probe.swift:42-44 | the client map and the sent log are unchanged |
| `Actor.Probe.Once` | Sources/Pioneer/WebSocket/Actor/Probe.swift:47-52 | a pipe is started if and only if the pid is registered. The pipe addresses the registered process and carries the request and context to execute |
| `Actor.Probe.Stop` | Sources/Pioneer/WebSocket/Actor/Probe.swift:67-69 | the client map and the sent log are unchanged |
| `Actor.Probe.Outgoing` | Sources/Pioneer/WebSocket/Actor/Probe.swift:72-74 | appends exactly two messages to that process, in order: the result, then `complete` for the same id. The map is unchanged |
| `Actor.Probe.OnMessage` | Sources/Pioneer/WebSocket/Actor/Probe.swift:31-78 | one command is one `Step` of the state. The pipe returned is the one `PipeOf` names. The signal is always `same`, so the actor never stops |

## Left out

- The route and the upgrade handshake in `applyWebSocket` are not modelled. This covers header negotiation, `sendPing`, and registering the `onText`/`onClose` callbacks. It is transport I/O.
- The repeating loop of `setInterval` (sleep, cancellation polling, the keep-alive send) is not modelled. It is timer and concurrency behaviour. Only its `nil` guard is modelled.
- Concurrency is not modelled. `onMessage` runs in its own task, `process.send` is fire-and-forget, and actor calls are awaited. The model keeps the order in which the handler issues its effects.
- `schema.execute`, `Probe.execute` and the `pipeToSelf` future are foreign calls. The execution result is an input (`Execution`: a result or a failure description).
- The sub-protocol parser (`websocketProtocol.parse`) and the introspection check are inputs. So is `initialize`, which is one opaque effect. The exact message tokens of the two sub-protocol variants are abstracted to the message kinds `Next`, `Complete`, `Error` and `KeepAlive`.
- JSON serialisation (`jsonString`) is not modelled: messages stay structured values. GraphQL variables are not modelled either.
- The wrappers `probe.connect(with:)`, `probe.start(for:with:given:)` and the like are not part of this model. The model assumes they post the matching `Act` command, with the process's context as `ctx`.
- `WebSocket.OnEnd`: the disconnect is spawned in its own task, so its order relative to the cancellation is not stated. Only that both happen is stated.
- `Pioneer+RequestContext.swift` (an initializer that only forwards defaults) and `Closure.swift` (`def` only calls its closure) hold no logic to state.
