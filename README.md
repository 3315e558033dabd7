# tiny-champ-select-helper, modelled in Dafny

tiny-champ-select-helper watches a running League of Legends client. It
reads the client's lockfile to learn the local port and password of the
League Client Update (LCU) API. It opens a REST client and a WebSocket on
that port and subscribes to the game-flow phase endpoint. It then keeps a
snapshot of the client's status (`ClientStatus`): the phase, the player's
region and name, and in champion select the display names of the team.
Every time the phase changes, the snapshot is published on a broadcast
channel to the web front end.

The project models this core in Dafny and proves properties of it:

- `text.dfy` (`Text`): the string operations the core relies on.
  - Rust's decimal printing of unsigned integers, and the value of a digit
    string. The `u32` parser itself is `Lcu.ParseU32`.
  - `str::split` on one character.
  - `str::replace` of one character by another.
  - ASCII lower-casing.
  - The `Debug` form of a `Vec<u64>`.
- `json.dfy` (`JsonValues`): the part of `serde_json::Value` that the core
  reads: indexing by key, `as_str`, `as_array` and `as_u64`.
- `client_state.rs` is modelled in `client_state.dfy` (`ClientStates`).
  - Phases: `ClientState` and its mapping from phase strings.
  - Snapshots: the `ClientStatus` snapshot and its presence invariant,
    `Consistent`.
  - The lookups:
    - `BasicInfo::load_from`;
    - the champion-select roster lookup;
    - `ClientState::load_from`.
  - Updates: `ClientStatus::update`, first as a function of the old
    snapshot (`Transition`), then as a method of the class `ClientStatus`
    that updates its fields in place.
- `lcu.rs` is modelled in `lcu.dfy` (`Lcu`).
  - The lockfile parser `RiotLockFile::read`.
  - The two URLs that `connect` builds.
  - The wire actions `[code,"name"]` and their serde encoding, with a
    decoder that proves the encoding can be read back.
  - `subscribe`.
  - `LcuWebSocket::read`: its loop passes over non-text and empty
    messages. `LcuWebSocket` is a class whose `incoming` field is the
    stream's remaining items and whose `sent` field holds the frames
    written so far.
- `supervisor.dfy` (`Supervisor`) models the task that `run` spawns in
  `main.rs`:
  - load and publish the first snapshot, then subscribe;
  - loop over the socket's events, updating and publishing on every phase
    change;
  - stop when the stream ends, the channel is closed or an update fails;
  - finally update to `Closed` and publish again.

  The task is a function (`Task`, built from `Loop` and `Dispatch`), whose
  properties are lemmas. It is also the imperative task `RunTask`, which
  `EventLoop` and `HandleEvent` build on; these are proved equal to the
  function.

The I/O is turned into values:

- The REST API of one connection is an `Api` map from request path to JSON
  body. A path that is absent is a request that fails, or whose body is not
  JSON. Every lookup reports the paths it requested, in order.
- The socket's stream is a sequence of `Incoming` items.
- `serde_json::from_str::<Event>` is the `decode` parameter.
- The channel's answers to the broadcasts inside the loop are a sequence of
  `SendResult` values.
- A failed `unwrap` inside an update is an `Aborted` outcome, and it ends the
  task as `Panicked`.

## Model

| member | source | states |
|---|---|---|
| Text.DecimalString | src/lcu.rs:59 | The decimal text of a port is canonical (digits, no leading zero) and holds no ':' |
| Text.DecimalStringValue | src/lcu.rs:59 | Reading the printed digits back gives the number |
| Text.CanonicalIsDecimalString | src/lcu.rs:38-39 | Every canonical digit string is the printed form of its value |
| Text.DecimalStringInjective | src/lcu.rs:59 | Different ports print differently |
| Text.Split | src/lcu.rs:33 | `split(':')` yields at least one piece, no piece holds the separator, and joining the pieces restores the text |
| Text.SplitAppend | src/lcu.rs:33 | Splitting at a separator splits the two sides independently |
| Text.SplitJoin | src/lcu.rs:33 | Splitting a joined list of separator-free pieces gives the pieces back |
| Text.ReplaceChar | src/lcu.rs:118 | `replace('/', "_")` keeps the length, maps each character on its own, and leaves no '/' |
| Text.ReplaceCharAppend | src/lcu.rs:118 | Replacement distributes over concatenation |
| Text.ToLowerAscii | src/client_state.rs:14 | The lowered region has the same length, each character lowered, and no capital letters |
| Text.ToLowerAsciiIdempotent | src/client_state.rs:14 | Lowering an already lowered region changes nothing |
| Text.DebugList | src/client_state.rs:76 | The `{:?}` form of the id list is bracketed |
| Text.DigitsValueLeadingZero | src/lcu.rs:38-39 | A leading zero does not change the value of a digit string |
| Text.DebugItemsInjective | src/client_state.rs:76 | Different id lists give different comma-separated items |
| Text.DebugListInjective | src/client_state.rs:76 | Different id lists have different `{:?}` forms |
| ClientStates.FromPhase | src/client_state.rs:28-36 | "ChampSelect" and only it gives ChampSelect; "InProgress" and only it gives InGame; every other phase gives Idle; no phase gives Closed |
| ClientStates.DefaultState | src/client_state.rs:44-48 | The default state; no contract of its own, `NoPhaseIsDefault` states it is Closed and reached by no phase |
| ClientStates.NoPhaseIsDefault | src/client_state.rs:44-48 | The default state is Closed, and no phase string maps to it |
| ClientStates.DefaultStatus | src/client_state.rs:50-55 | The default snapshot is Closed with no identity and no roster, and is consistent |
| ClientStates.LoadState | src/client_state.rs:38-42 | One request to the phase endpoint; it succeeds exactly when the body is a string, and then gives that string's state, never Closed |
| ClientStates.LoadBasicInfo | src/client_state.rs:11-17 | The region is requested first and the summoner second, the second only when the first succeeded; success exactly when both fields are strings; the server is the lowered region and the username the display name |
| ClientStates.SummonerIds | src/client_state.rs:69-72 | Succeeds exactly when every team member's summonerId is an unsigned 64-bit number, and then lists them in team order |
| ClientStates.Positive | src/client_state.rs:73 | Keeps exactly the non-zero ids and never grows the list |
| ClientStates.PositiveAppend | src/client_state.rs:73 | The filter works piecewise, so the kept ids stay in team order |
| ClientStates.PositiveKeepsNonzero | src/client_state.rs:73 | A list without zeros is left unchanged |
| ClientStates.PositiveExample | src/client_state.rs:73 | Empty slots with id 0 are dropped from a concrete team |
| ClientStates.DisplayNames | src/client_state.rs:78-80 | Succeeds exactly when every entry's displayName is a string, and then lists them in answer order |
| ClientStates.NamesPath | src/client_state.rs:76 | The names request is the summoner-names endpoint followed by the `{:?}` form of the ids, and it differs from the region request |
| ClientStates.NamesPathInjective | src/client_state.rs:76 | Different id lists ask for different names paths |
| ClientStates.RosterIds | src/client_state.rs:69-74 | Succeeds exactly when the session answers, its `myTeam` is an array and every member's summonerId is a u64; the ids are then the team's summoner ids with the zeros removed, in team order, all positive |
| ClientStates.LoadRoster | src/client_state.rs:67-85 | The session is requested first, and alone when its ids cannot be read. Otherwise the names path for the ids is requested, and the lookup succeeds exactly when that answer is an array whose every displayName is a string, giving those names. The region is never requested |
| ClientStates.Identity | src/client_state.rs:61-66 | A known identity is kept without requests; a missing one is what `LoadBasicInfo` answers, and the region is then requested exactly once |
| ClientStates.Roster | src/client_state.rs:67-83 | A known roster is kept without requests; a missing one is what `LoadRoster` answers, and the session is requested exactly when the roster is missing |
| ClientStates.Transition | src/client_state.rs:59-86 | A successful update has the requested state and a consistent snapshot. Closed clears everything without requests. A known identity or roster is kept, and a missing one is what its lookup answers. The region is requested once exactly when the identity was missing, and the session only when entering champion select without a roster. The update fails exactly when a lookup it needs fails |
| ClientStates.TransitionIdempotent | src/client_state.rs:59-86 | Updating again to the same state changes nothing and issues no request |
| ClientStates.LoadStatus | src/client_state.rs:88-92 | The phase is requested first. Loading succeeds exactly when the phase, the identity and, in champion select, the roster lookups answer. The snapshot is then consistent, not Closed, has the reported phase, and carries the identity and roster those lookups answer. The region is requested at most once |
| ClientStates.ClientStatus.Snapshot | src/client_state.rs:50-55 | `status.clone()`, the value of the object's three fields; no contract of its own |
| ClientStates.ClientStatus.constructor | src/client_state.rs:50 | A new status holds the default snapshot |
| ClientStates.ClientStatus.Update | src/client_state.rs:59-86 | The fields after the update and the requests issued are those of `Transition` on the old snapshot; a failed update leaves the fields as they were |
| ClientStates.ClientStatus.LoadFrom | src/client_state.rs:88-92 | A fresh status whose snapshot and requests are those of `LoadStatus` |
| Lcu.ParseU32 | src/lcu.rs:38-39 | Parsing succeeds exactly when the text after an optional '+' is non-empty, all digits, and of a value that fits 32 bits; the result is that value, leading zeros included; "" and "+" are refused |
| Lcu.ParseDisplayed | src/lcu.rs:38-39 | What `Display` prints for a u32 parses back to it, with or without a leading '+' |
| Lcu.ParseRejectsWide | src/lcu.rs:38-39 | A number wider than 32 bits is refused |
| Lcu.ParseIgnoresLeadingZero | src/lcu.rs:38-39 | A leading zero is accepted and does not change the result |
| Lcu.ParseLeadingZerosExample | src/lcu.rs:38-39 | "007" parses as 7 |
| Lcu.ParseCanonical | src/lcu.rs:38-39 | A canonical digit string that parses is the printed form of its value |
| Lcu.ReadLockFile | src/lcu.rs:30-52 | Succeeds exactly when there are at least five pieces and pid and port parse. Then the record takes its fields from pieces 0 to 4, with the fixed username and address. Otherwise it names the first failing step: a bad pid, then a bad port, else the missing piece |
| Lcu.ReadWritten | src/lcu.rs:30-52 | Reading the line `process:pid:port:password:protocol` of a well-formed record gives the record back |
| Lcu.ReadIgnoresExtraFields | src/lcu.rs:33-41 | Pieces after the fifth do not change the result |
| Lcu.BaseUrl | src/lcu.rs:59 | The REST base URL starts with the lockfile's protocol and "://"; `BaseUrlParts` states its host and port |
| Lcu.SocketUrl | src/lcu.rs:67 | The socket URL starts with "wss://"; `SocketUrlParts` states its host and port |
| Lcu.UrlParts | src/lcu.rs:59-67 | The ':'-separated parts of `scheme://host:port` are the scheme, "//" and the host, and the port in decimal |
| Lcu.BaseUrlParts | src/lcu.rs:59 | The base URL's parts are the protocol, "//" and the address, and the port |
| Lcu.SocketUrlParts | src/lcu.rs:67 | The socket URL's parts are "wss", "//" and the address, and the port |
| Lcu.UrlsDifferOnlyInScheme | src/lcu.rs:59-67 | The socket URL is the base URL with its scheme replaced by `wss` |
| Lcu.BaseUrlCarriesPort | src/lcu.rs:59 | The port is the text after the base URL's last ':' |
| Lcu.SocketUrlCarriesPort | src/lcu.rs:67 | The port is the text after the socket URL's last ':' |
| Lcu.Code | src/lcu.rs:82-88 | Action codes are written as 5, 6 or 8 |
| Lcu.CodeOf | src/lcu.rs:82-88 | Exactly 5, 6 and 8 are read back as codes, each as the code written with that number |
| Lcu.CodeRoundTrip | src/lcu.rs:82-88 | Reading back a written code gives the code |
| Lcu.SubscribeAction | src/lcu.rs:116-119 | A subscription has code 5 and a name that is the event prefix followed by the endpoint, character by character, with every '/' turned into '_' |
| Lcu.GameflowSubscription | src/main.rs:127 | The phase subscription's event name is `OnJsonApiEvent_lol-gameflow_v1_gameflow-phase` |
| Lcu.EscapeChar | src/lcu.rs:112 | A character is written as it is exactly when it is not a quote, a backslash or a control character; otherwise it is written as a backslash escape |
| Lcu.Escape | src/lcu.rs:112 | A name inside a JSON string literal; no contract of its own, `UnescapeEscape` reads it back and `EscapePlain` leaves plain names alone |
| Lcu.EncodeAction | src/lcu.rs:112 | The frame `[code,"name"]` serde writes; no contract of its own, `DecodeEncodeAction` reads it back |
| Lcu.UnescapeEscapeChar | src/lcu.rs:112 | One escaped character reads back as itself, followed by the rest |
| Lcu.UnescapeEscape | src/lcu.rs:112 | Escaping a name for a JSON string literal is undone by unescaping |
| Lcu.DecodeEncodeAction | src/lcu.rs:111-114 | Every frame that `send` writes decodes to the action it encodes |
| Lcu.EscapePlain | src/lcu.rs:112 | A name without quotes, backslashes or control characters is written as it is |
| Lcu.SubscribeFramePlain | src/lcu.rs:116-119 | For a plain endpoint the frame is `[5,"name"]` |
| Lcu.GameflowSubscribeFrame | src/main.rs:127 | The frame the task writes is `[5,"OnJsonApiEvent_lol-gameflow_v1_gameflow-phase"]` |
| Lcu.SkipCount | src/lcu.rs:127-137 | The items `read` passes over are a prefix of the stream, all of them non-text or empty, and the item after it is neither |
| Lcu.Interpret | src/lcu.rs:128-134 | A transport error is an error. A message that stops `read` is non-empty text. Text that does not decode as an event is an error, and text that does gives the event's uri and data |
| Lcu.NextEvent | src/lcu.rs:126-141 | The stream ends exactly when every remaining item is passed over. Otherwise the result is that of the first item not passed over, and the stream resumes right after it |
| Lcu.LcuWebSocket.constructor | src/lcu.rs:75-77 | A new socket yields the given stream and has written nothing |
| Lcu.LcuWebSocket.Send | src/lcu.rs:111-114 | Writes exactly the action's frame and reads nothing |
| Lcu.LcuWebSocket.Subscribe | src/lcu.rs:116-119 | Writes exactly the subscription frame for the endpoint |
| Lcu.LcuWebSocket.Read | src/lcu.rs:126-141 | The result and the remaining stream are those of `NextEvent`, and nothing is written |
| Supervisor.Dispatch | src/main.rs:148 | The end of the stream stops the loop and changes nothing |
| Supervisor.DispatchSpec | src/main.rs:130-150 | A publication needs a gameflow event with a string payload whose state differs from the current one, and a changed phase publishes or panics. A publication is the new, consistent snapshot that `Transition` gives, with its requests. An unchanged phase, other events, non-string payloads and read errors change nothing, request nothing and go on. The loop stops for a closed channel exactly when a publication met it, and goes on after a publication that was sent or found no receiver. Only the end of the stream stops it as ended. A panic publishes nothing |
| Supervisor.Loop | src/main.rs:129-151 | The loop as a function: one `socket.read()`, then `Continue`; no contract of its own, the `Loop…` lemmas state its properties |
| Supervisor.Continue | src/main.rs:130-150 | One pass after the read: `Dispatch`, then stop or go round again; no contract of its own |
| Supervisor.DispatchOnChange | src/main.rs:134-141 | A phase change on the subscribed endpoint panics exactly when the update fails. Otherwise it publishes the updated snapshot and becomes it. Either way the update's requests are the step's |
| Supervisor.LoopEndsOnLastPublication | src/main.rs:129-151 | After the loop, the snapshot is the last one published, or the initial one when nothing was published |
| Supervisor.LoopStatesChange | src/main.rs:134-141 | No publication repeats the state before it |
| Supervisor.LoopPublications | src/main.rs:129-151 | The loop never publishes a Closed snapshot, and every snapshot it publishes is consistent |
| Supervisor.LoopKeepsIdentity | src/main.rs:129-151 | Once the identity is known, the loop never requests the region again |
| Supervisor.Task | src/main.rs:120-155 | The spawned task as a function: load and publish, loop, then update to Closed and publish unless an update panicked; no contract of its own, the `Task…` lemmas state its properties |
| Supervisor.TaskStartsWithLoad | src/main.rs:124-125 | The first publication is the loaded snapshot; nothing is published exactly when loading fails |
| Supervisor.TaskPublishesConsistent | src/main.rs:120-155 | Every snapshot the task publishes is consistent |
| Supervisor.TaskStatesChange | src/main.rs:120-155 | No two neighbouring publications share a state |
| Supervisor.TaskEndsClosed | src/main.rs:153-154 | Unless an update panicked, the last publication is the Closed snapshot and no earlier one is Closed |
| Supervisor.TaskFetchesIdentityOnce | src/main.rs:120-155 | The region is requested at most once per connection |
| Supervisor.LoopStep | src/main.rs:129-151 | The loop is one read and one dispatch, then either a stop or the rest of the loop |
| Supervisor.HandleEvent | src/main.rs:131-149 | One match arm, run on the status object, has the effect `Dispatch` gives |
| Supervisor.ReadAndHandle | src/main.rs:130-150 | One pass reads one event and either ends the loop as `Loop` does, or consumes input and leaves the rest of `Loop` to go |
| Supervisor.EventLoop | src/main.rs:129-151 | The imperative loop ends with the snapshot, publications, requests and reason that `Loop` gives, and writes nothing to the socket |
| Supervisor.RunTask | src/main.rs:120-155 | The imperative task publishes, requests and ends as `Task` does. It writes the phase subscription frame exactly when loading succeeded |

## Left out

- Reading the lockfile from disk, TLS, the certificate, HTTP and the WebSocket handshake in `connect` (src/lcu.rs:54-78) are I/O and are not modelled. The URLs it builds are modelled, but their parsing is not.
- The REST API is a fixed `Api` map for one connection. Answers that change between two requests of the same path are not modelled.
- `serde_json` parsing of inbound events is the `decode` parameter and is not modelled as text processing. The outbound encoding of actions is modelled.
- `to_lowercase` is modelled on ASCII letters only. Unicode case mapping is not modelled.
- The broadcast channel and its receivers (src/util.rs, src/main.rs:209-253) are not modelled. The channel is reduced to its answers, in order, to the broadcasts inside the loop. The initial and final broadcasts ignore their answer in the source, and in the model too.
- The web server, the tray icon, Ctrl-C handling, the configuration, assets/script.js, build.rs and the commented-out code are not part of this model.
- src/main.rs:24-113 is a copy of src/client_state.rs and is covered by the same model.
- A failed write in `subscribe` is an `unwrap` panic in the task. The model assumes the write succeeds.
- Logging (`log::warn!`) is not modelled. The events it reports are skipped, as in the source.
- ClientStates.ClientStatus.Update: when a lookup fails, the source has already assigned the new state before it panics. The model leaves the object as it was. The difference cannot be observed, because the panic ends the task.
- ClientStates.SummonerIds: a negative or non-integer summonerId makes `as_u64().unwrap()` panic, so the lookup fails. It is not filtered out as a non-positive id would be. The model follows the code.
- Lcu.ReadLockFile: a missing piece reached before any parse fails is an index panic in the source. The model reports it as `MissingField` with the first missing index.
- Supervisor.Dispatch: its own ensures covers only the end of the stream. Everything else it does is stated by `Supervisor.DispatchSpec` and `Supervisor.DispatchOnChange`.
- `Supervisor.Loop`, `Supervisor.Continue` and `Supervisor.Task` carry no ensures of their own. Their properties are the `Loop…` and `Task…` lemmas.
