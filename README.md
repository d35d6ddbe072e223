# File-fetch coordinator and agent, modelled in Dafny

The system has two programs. A coordinator (`server/main.go`) keeps a registry
of agents connected over WebSocket control channels. Its `/trigger` endpoint
writes the text command `"DOWNLOAD"` to every registered agent. Its `/upload`
endpoint stores an agent's file under a name derived from the agent's id.
An agent (`client/main.go`) dials the coordinator with a bearer token and its id,
retries every 5 seconds when the dial fails, and reads commands. On
`"DOWNLOAD"` it POSTs its file to the configured upload URL (the coordinator's `/upload`). On a read error it closes the
connection and dials again.

The model has six modules:

- `Wrappers`: `Option` and `Result`.
- `Config`: `mustEnv` over an environment map, and a run of `mustEnv` calls that stops at the first missing key.
- `Http`: the header names, the `Bearer` form of the credential, the `"DOWNLOAD"` command, an abstract `Request` and an abstract connection `Conn`.
- `Server`: pure decision functions for the credential gate and the three handlers. It also has the `Coordinator` class, which holds the
  key, the `clients` map and a ghost log of every `WriteMessage` call. Its methods `WsHandler`, `TriggerHandler`
  and `UploadHandler` are proved against those functions. The received files live in a `Disk` object.
- `Client` and `ClientSession`: the agent's startup, `uploadFile` as a method with early returns, and the control session.
  The session is a state machine (`Dialing`, `Connected(ws)`). Its input is the sequence of outcomes the
  environment delivers at each suspension point: dial succeeded, dial failed, message received, read failed.
  Its output is the list of actions the agent performs: dial, sleep 5 s, close, upload, ignore.
  `ControlSession` is the nested loop of `main` with `continue` and `break`.
  It is proved equal to the functional trace `Trace`, and the lemmas about the session are stated over `Trace`.
  Every read outcome emits exactly one action: `Upload`, `Ignore` or `Close`. Every dial outcome emits a `Dial`,
  followed by a `Sleep` when the dial failed. So the order of actions in a trace is the order of the reads and dials.
- `EndToEnd`: lemmas that join the two sides. The agent's dial is admitted. Its upload round-trips into the
  destination file. A wrong token is refused. A broadcast message makes a connected agent upload.

Transport and environment results are parameters:
- the new connection, or `None` when `Upgrade` fails;
- whether `os.Create` succeeds;
- how many body bytes `io.Copy` moved;
- the agent's file system, as a map;
- whether `http.NewRequest` and `DefaultClient.Do` succeed;
- the dial and read outcomes.

Each handler is one atomic step, as the mutex makes it for the registry.

The code does not do the following, and neither does the model:
- Registering an id that is already present replaces the entry. The old connection is not closed.
- A failed write during a trigger is ignored, and nothing is evicted.
- The trigger returns no count. It always replies `"Trigger sent"`.
- `/trigger` has no credential check.
- `uploadFile` runs synchronously inside the read loop. It is not fire-and-forget.

## Model

| member | source | states |
|---|---|---|
| `Config.MustEnv` | server/main.go:37-43 | the value is returned exactly when the variable is set and non-empty; otherwise the fatal stop names the key (the agent's `mustEnv`, client/main.go:13-19, is identical) |
| `Config.MustEnvAll` | server/main.go:26-27 | a run of `mustEnv` calls succeeds iff every key is non-empty and yields their values in order; on failure it names the first missing key |
| `Server.ServerStartup` | server/main.go:23-27 | startup succeeds iff API_TOKEN and SERVER_PORT are both set; the key and port are the environment's values; API_TOKEN missing is reported before SERVER_PORT |
| `Client.ClientStartup` | client/main.go:21-28 | startup succeeds iff all five variables are set; the configuration holds their values; a failure names the first missing one in program order |
| `Http.Bearer` | client/main.go:31 | the credential header value is "Bearer " followed by exactly the token |
| `Http.BearerSplit` | server/main.go:46 | a header value equals the bearer form of a token iff it is the prefix "Bearer " followed by that token |
| `Http.BearerInjective` | server/main.go:46 | two tokens with the same header value are equal |
| `Server.Authorized` | server/main.go:45-47 | authorized iff the Authorization header is "Bearer " followed by exactly the key; a missing header is rejected |
| `Server.Admit` | server/main.go:50-59 | admitted iff the credential matches and X-Client-ID is non-empty; a bad credential gives 401, a good one with an empty id gives 400 |
| `Server.CredentialCheckedFirst` | server/main.go:50-53 | with a bad credential the reply is 401 whatever X-Client-ID holds, present or absent |
| `Server.WsDecision` | server/main.go:49-72 | rejected exactly when the checks fail, with their reply; upgrade failure only after both checks pass; registration exactly when checks pass and the upgrade succeeds, under the header's id and the new connection |
| `Server.RegistrationUpsert` | server/main.go:67-69 | after a registration the id maps to the new connection, every other entry is unchanged, and the key set grows by one only for a new id |
| `Server.BroadcastStep` | server/main.go:78-81 | one more write to a not-yet-addressed registered id extends a partial broadcast by that id |
| `Server.BroadcastSize` | server/main.go:78-81 | a broadcast makes exactly as many writes as ids it addresses |
| `Server.EmptyRegistryNoSends` | server/main.go:74-84 | with an empty registry the trigger writes nothing |
| `Server.DestinationNameInjective` | server/main.go:98 | distinct ids get distinct destination names |
| `Server.UploadReply` | server/main.go:86-108 | 401 iff the credential is wrong; else 400 iff the id is empty; else 500 iff the file cannot be created; else 200 with an empty body; the status code written is that number |
| `Server.RejectedUploadWritesNothing` | server/main.go:87-102 | a 401, 400 or 500 upload leaves every file as it was |
| `Server.UploadStoresBody` | server/main.go:98-105 | a complete accepted upload leaves exactly the body in `received_<id>.txt`, replacing prior content |
| `Server.UploadIsolation` | server/main.go:98 | an upload never changes the file of another id |
| `Server.Coordinator.constructor` | server/main.go:18-26 | the coordinator starts with the configured key, an empty registry and no sends |
| `Server.Coordinator.WsHandler` | server/main.go:49-72 | the outcome is `WsDecision`'s; the registry changes (by an upsert) only on registration |
| `Server.Coordinator.TriggerHandler` | server/main.go:74-84 | appends exactly one "DOWNLOAD" write to each registered connection, to nothing else; the registry is not modified; the reply is always "Trigger sent" |
| `Server.Coordinator.UploadHandler` | server/main.go:86-109 | the reply is `UploadReply`'s; the destination holds the copied bytes on 200 and no file changes otherwise |
| `Server.ErrorReply` | server/main.go:51 | (definition) `http.Error`'s reply: the status and the message followed by a newline, as also at lines 57, 94 and 100 |
| `Server.Status.Code` | server/main.go:51 | (definition) the status codes the handlers write: 401 at line 51, 400 at lines 57 and 94, 500 at line 100, and 200 at line 108 |
| `Server.RegistryAfter` | server/main.go:67-69 | (definition) the registry after a control-channel request: the upsert of the id on registration, unchanged otherwise |
| `Server.DestinationName` | server/main.go:98 | (definition) `"received_"` + id + `".txt"` |
| `Server.StoreUpload` | server/main.go:98-105 | (definition) the files after an upload: the destination replaced by the copied body bytes on 200, unchanged otherwise |
| `Client.DialHeaders` | client/main.go:30-32 | (definition) the Authorization and X-Client-ID headers `main` presents on every dial |
| `Client.UploadRequest` | client/main.go:68-76 | (definition) the POST `uploadFile` builds: the URL, the three headers and the file's bytes |
| `Client.Next` | client/main.go:35-55 | (definition) the session's next state: a successful dial connects, a failed dial or read error returns to dialing, a message keeps the state |
| `Client.Emit` | client/main.go:35-55 | (definition) the actions of one event: dial and sleep 5 s, dial, close, upload, or ignore |
| `Client.Admissible` | client/main.go:34-57 | (definition) each event answers the call the session is blocked on: a dial outcome while dialing, a read outcome while connected |
| `Client.Trace` | client/main.go:34-57 | (definition) the actions of a history, event by event in order |
| `Client.Final` | client/main.go:34-57 | (definition) the session state after a history |
| `Config.Getenv` | server/main.go:38 | (definition) `os.Getenv`: the value, or "" for an unset key (also client/main.go:14) |
| `Http.HeaderGet` | server/main.go:46 | (definition) `Header.Get`: the header's value, or "" when it is absent (also lines 55 and 92) |
| `Server.ClientId` | server/main.go:55 | (definition) the X-Client-ID header, "" when absent (also line 92) |
| `Client.UploadCall` | client/main.go:54 | (definition) the `uploadFile(uploadURL, token, clientID, filePath)` call that every "DOWNLOAD" makes |
| `Client.Accepts` | client/main.go:35-45 | (definition) which blocking call is pending: `Dial` (line 35) accepts only dial outcomes, `ReadMessage` (line 45) only read outcomes |
| `Client.SameCredentialsOnBothChannels` | client/main.go:74-76 | the upload request carries the same Authorization and X-Client-ID values as the dial headers, plus Content-Type |
| `Client.UploadFile` | client/main.go:60-86 | no request is sent when the file cannot be opened or the request cannot be built; a sent request is a POST to the URL with the file's bytes, the bearer token, the id and `application/octet-stream`; the outcome names the step that ended it |
| `Client.ControlSession` | client/main.go:34-57 | the nested dial/read loops produce exactly `Trace` of the events and end in `Final` |
| `ClientSession.FinalAppend` | client/main.go:34-57 | a history is admissible iff its first part is and the rest is admissible from where it left off |
| `ClientSession.TraceAppend` | client/main.go:44-56 | the trace of a history is the first part's trace followed by the rest's; an upload completes before the next read |
| `ClientSession.Dispatch` | client/main.go:34-57 | after any history one more event moves the state by `Next` and appends that event's actions |
| `ClientSession.DialFailureRetries` | client/main.go:35-40 | a failed dial appends a dial and a 5-second sleep and the session stays dialing |
| `ClientSession.DialSuccessConnects` | client/main.go:35-42 | a successful dial makes its connection the current one |
| `ClientSession.ReadFailureReconnects` | client/main.go:45-50 | a read error closes the current connection and returns to dialing |
| `ClientSession.MessageDispatch` | client/main.go:52-55 | "DOWNLOAD" appends exactly one upload call, any other message is ignored, and the session stays on the same connection |
| `ClientSession.SessionNeverTerminates` | client/main.go:34-57 | after any history both outcomes of the pending dial or read continue the session |
| `ClientSession.RetriesIndefinitely` | client/main.go:34-40 | any number of failed dials yields a dial and a 5-second sleep each, still dialing; a later successful dial connects |
| `ClientSession.Accounting` | client/main.go:34-57 | uploads equal "DOWNLOAD" messages received, sleeps equal failed dials, closes equal read errors, dials equal dial outcomes |
| `ClientSession.EveryDialPresentsCredentials` | client/main.go:30-35 | every dial goes to the configured URL with "Bearer " + token and the client id |
| `ClientSession.ConnectionFromLastDial` | client/main.go:35-50 | when connected, the most recent dial outcome delivered the current connection and only messages were read since |
| `EndToEnd.DialRegistersAgent` | server/main.go:49-69 | a dial with the agent's headers is registered under its id when the tokens agree and refused with 401 otherwise |
| `EndToEnd.UploadRoundTrip` | server/main.go:86-108 | the agent's upload, delivered whole, gets 200 and stores exactly the agent's file bytes under its destination |
| `EndToEnd.WrongTokenUploadRefused` | server/main.go:87-90 | an upload with another token gets 401 and creates or changes no file |
| `EndToEnd.BroadcastTriggersUpload` | server/main.go:78-81 | each message of a trigger makes a connected agent call `uploadFile` once |

## Left out

- WebSocket and HTTP transport: the RFC 6455 handshake, `http.ListenAndServe`, `DefaultDialer` and `DefaultClient` are only success or failure parameters. The process-fatal case of failing to bind the port is not modelled.
- The HTTP status that `Upgrade` writes when the handshake fails comes from the WebSocket library; the model records only `UpgradeFailed`.
- Concurrency: the `sync.Mutex` and the per-request goroutines are not modelled; each handler is one atomic step, and interleavings are not modelled.
- The trigger holds the mutex across all its writes; the model's single atomic step covers this.
- File system and streaming: `os.Create`, `os.Open` and `io.Copy` are a map of names to byte sequences plus success flags. The number of bytes `io.Copy` moves is a parameter, because its error is discarded and a short copy is still answered 200.
- `Server.DestinationNameInjective`: injective on names as strings only. Ids containing `/` or `..` might name the same file on disk, or one outside the working directory, once the path is resolved. Path resolution is not modelled.
- Go's header-name canonicalisation, and headers with several values, are not modelled. Header names are literal keys used the same way on both sides.
- EndToEnd.DialRegistersAgent: assumes the agent's header values reach the coordinator unchanged. Go's `net/http` trims leading and trailing spaces and tabs from header values when it writes and when it reads them, so a token with surrounding whitespace can be refused even though the configured tokens are equal. Header transmission is not modelled.
- EndToEnd.UploadRoundTrip: assumes the same unchanged header values. An id with surrounding spaces or tabs arrives trimmed, so the file lands at the trimmed id's destination, not at `DestinationName` of the configured id.
- EndToEnd.WrongTokenUploadRefused: assumes the same unchanged header values. Two tokens that differ only in surrounding spaces or tabs compare equal once Go trims them, so the upload is accepted rather than refused.
- The WebSocket message type is ignored on the agent side, as in the code. A message is its text.
- The agent's session runs forever. The model covers every finite prefix of admissible events, and `SessionNeverTerminates` says that every prefix can be extended.
- Logging, `godotenv.Load`, `CheckOrigin` and the real 5-second duration of `time.Sleep` are left out. The sleep is recorded as the action `Sleep(5)`.
- The agent closes the upload response body and never looks at its status. Any response counts as `Uploaded`.
- `Client.UploadFile` is not called from the session. The session records the call as the `Upload` action with its arguments, because its outcome never feeds back into the session.
