# Shared playback session of the streaming service

The service lets many viewers watch one uploaded video in step. The server
keeps a single shared session: the current video URL (`currentVideo`, null
until the first publish) and the playback record `videoState = {playing, time}`.
Socket events from any viewer update that record and are re-broadcast; a new
connection is sent the current video and state; a successful upload publishes
a new video and resets playback. Each viewer page keeps one flag, `isSeeking`,
that decides whether the video element's own notifications are forwarded to
the server and whether an incoming `videoState` may move the playhead.

The model has five modules:

- `Protocol` (protocol.dfy): the playback record, the socket messages, and a
  last-write-wins reference function `Latest`.
- `Server` (server.dfy): one function per server handler, from the session
  (video, playback record, connected ids) to the next session and the list of
  emits. An emit is addressed to a set of connection ids: `socket.emit` gives
  `{id}`, `io.emit` gives every connected id. `Inbox(out, c)` is what
  connection `c` receives, in order. Class `SessionServer` holds the same
  state in mutable fields, as server.js does with its module-level variables.
  Each of its methods updates the fields in place and is proved to produce
  exactly the state and emits of the matching function.
- `ServerTraces` (server_traces.dfy): the session after a sequence of events,
  and last write wins for every shared field.
- `Client` (client.dfy): one function per page listener. The video element
  is abstract state (source, position, paused). Class `ViewerPage` holds the
  flag and the element's fields and updates them in place.
- `ClientTraces` (client_traces.dfy) and `Echo` (echo.dfy): what the guard
  does over a sequence of inputs, and what happens when server and page are
  put together.

The `isSeeking` flag goes up only when the server sends a seek
(public/script.js:39-43) and comes down at the next `seeked` notification
(public/script.js:59-62), which suggests it is meant to keep a server-initiated
seek from being reported back to the server. It does not do that. `seeked`
always emits `seek`, and the server sends every `seek` to all connections, the
sender included (server.js:43-46). `Echo.SeekIsEchoedBack` and
`Echo.EchoNeverSettles` prove that a seek goes round again whenever the
element reports `seeked` after the page moves its playhead. What the flag does
achieve is `ClientTraces.PendingSeekIsSilent`: while a seek is pending, the
page sends nothing at all.

## Model

| member | source | states |
|---|---|---|
| Server.OnConnect | server.js:24-31 | a new connection joins the broadcast set and the video and playback record do not change; if `currentVideo` is truthy (set and not "") the new connection alone receives `loadVideo(url)` then `videoState(current record)` and no other connection receives anything; otherwise nothing is sent |
| Server.OnDisconnect | server.js:52-54 | a disconnect only removes the id from the connected set; video and playback are unchanged and nothing is sent |
| Server.OnPlay | server.js:33-36 | `playing` becomes true, `time`, the video and the connected set are unchanged, and every connected socket, the sender included, receives exactly `play` |
| Server.OnPause | server.js:38-41 | `playing` becomes false, `time`, the video and the connected set are unchanged, and every connected socket, the sender included, receives exactly `pause` |
| Server.OnSeek | server.js:43-46 | `time` becomes t, `playing` and the video are unchanged, and every connected socket, the sender included, receives exactly `seek(t)` |
| Server.OnUpdateTime | server.js:48-50 | `time` becomes t, nothing else changes, and nothing is sent |
| Server.OnPublish | server.js:78-84 | the video becomes the stored URL, playback is reset to `{playing: false, time: 0}`, and every connected socket receives `loadVideo(url)` then `videoState({false, 0})` |
| Server.OnUpload | server.js:58-92 | 400 if and only if the body is missing or empty; 500 if and only if a non-empty body met a storage error; no reply if storage reported neither error nor result; publishes (200 with the URL) if and only if a non-empty body was stored; every outcome other than publishing leaves the session unchanged and sends nothing |
| Server.SessionServer.constructor | server.js:21-22 | the process starts with no video, `{playing: false, time: 0}` and no connections |
| Server.SessionServer.Connect | server.js:24-31 | updates the fields in place to exactly the session `OnConnect` gives and returns its emits |
| Server.SessionServer.Disconnect | server.js:52-54 | updates the fields in place to exactly the session `OnDisconnect` gives and returns its emits |
| Server.SessionServer.Play | server.js:33-36 | sets `playing` in place to exactly the session `OnPlay` gives and returns its emits |
| Server.SessionServer.Pause | server.js:38-41 | sets `playing` in place to exactly the session `OnPause` gives and returns its emits |
| Server.SessionServer.Seek | server.js:43-46 | sets `time` in place to exactly the session `OnSeek` gives and returns its emits |
| Server.SessionServer.UpdateTime | server.js:48-50 | sets `time` in place to exactly the session `OnUpdateTime` gives and sends nothing |
| Server.SessionServer.Publish | server.js:80-83 | reassigns the video and playback record in place to exactly the session `OnPublish` gives and returns its emits |
| Server.SessionServer.Upload | server.js:58-92 | validates, then publishes or refuses in place, with exactly the session, emits and reply `OnUpload` gives |
| ServerTraces.HandleWrites | server.js:24-84 | each handler writes exactly one set of fields: play, pause and publish write `playing`; seek, updateTime and publish write `time`; only a publish writes the video; only connect and disconnect write the connected set |
| ServerTraces.SessionIsLastWrite | server.js:33-50 | after any sequence of events from any connections, each shared field holds the value of the last event that wrote it (last write wins), and a connection is connected if and only if its last connect or disconnect was a connect |
| ServerTraces.MembershipLeavesSharedState | server.js:24-54 | connects and disconnects never influence the video or the playback record: removing them from any trace leaves both unchanged |
| ServerTraces.SeekThenUpdateTime | server.js:43-50 | `seek(t1)` then `updateTime(t2)` leaves `time == t2` and makes exactly one emit, the broadcast of `seek(t1)` |
| ServerTraces.TwoPublishes | server.js:78-84 | two publishes leave the second URL with reset playback, and every connection receives each video followed by its reset state, in order |
| ServerTraces.LateJoinerThenPause | server.js:24-41 | with three viewers on "v1" playing at 42.5, a fourth joiner alone receives the video and state; after the first viewer pauses, the state is paused at 42.5 and all four, the first included, receive `pause` |
| Client.Loaded | public/script.js:7 | the page starts with `isSeeking` false and the player untouched |
| Client.OnLoadVideo | public/script.js:11-15 | sets the player source to the path; position, paused and `isSeeking` unchanged; emits nothing |
| Client.OnVideoState | public/script.js:17-27 | the position becomes `state.time` only when `isSeeking` is false; the player plays if `state.playing` and pauses otherwise; `isSeeking` unchanged; emits nothing |
| Client.OnServerPlay | public/script.js:29-32 | the player plays; nothing else changes; emits nothing |
| Client.OnServerPause | public/script.js:34-37 | the player pauses; nothing else changes; emits nothing |
| Client.OnServerSeek | public/script.js:39-43 | `isSeeking` becomes true and the position becomes t; emits nothing |
| Client.OnPlayed | public/script.js:47-51 | emits `play` if and only if `isSeeking` is false; changes nothing |
| Client.OnPaused | public/script.js:53-57 | emits `pause` if and only if `isSeeking` is false; changes nothing |
| Client.OnSeeked | public/script.js:59-62 | `isSeeking` becomes false and `seek(position)` is emitted unconditionally |
| Client.OnTimeUpdate | public/script.js:64-69 | emits `updateTime(position)` if and only if the player is not paused and `isSeeking` is false; changes nothing |
| Client.ViewerPage.constructor | public/script.js:7 | the page starts with `isSeeking` false |
| Client.ViewerPage.ReceiveLoadVideo | public/script.js:11-15 | sets `src` in place as `OnLoadVideo` says; emits nothing |
| Client.ViewerPage.ReceiveVideoState | public/script.js:17-27 | moves the playhead (unless seeking) and plays or pauses in place as `OnVideoState` says |
| Client.ViewerPage.ReceivePlay | public/script.js:29-32 | unpauses in place as `OnServerPlay` says |
| Client.ViewerPage.ReceivePause | public/script.js:34-37 | pauses in place as `OnServerPause` says |
| Client.ViewerPage.ReceiveSeek | public/script.js:39-43 | raises the flag and moves the playhead in place as `OnServerSeek` says |
| Client.ViewerPage.PlayerPlayed | public/script.js:47-51 | returns exactly the messages `OnPlayed` emits |
| Client.ViewerPage.PlayerPaused | public/script.js:53-57 | returns exactly the messages `OnPaused` emits |
| Client.ViewerPage.PlayerSeeked | public/script.js:59-62 | clears the flag in place and returns `seek(position)`, as `OnSeeked` says |
| Client.ViewerPage.PlayerTimeUpdate | public/script.js:64-69 | returns exactly the messages `OnTimeUpdate` emits |
| ClientTraces.ReactWritesGuard | public/script.js:11-69 | a server `seek` raises `isSeeking`, a `seeked` notification lowers it, and no other input touches it |
| ClientTraces.GuardIsLatestSeek | public/script.js:39-62 | after any sequence of inputs, `isSeeking` is true exactly when the latest server seek is more recent than the latest `seeked` |
| ClientTraces.PendingSeekIsSilent | public/script.js:39-69 | while a server seek is pending and no `seeked` arrives, the page emits nothing, whatever play, pause, heartbeat or server inputs arrive, and the seek stays pending |
| ClientTraces.ServerInputsAreNeverAnswered | public/script.js:11-43 | no sequence of server messages alone makes the page emit anything |
| Echo.SeekIsEchoedBack | public/script.js:59-62 | a seek the server sends to a connection comes back: the connection receives `seek(t)`, the page answers with the same `seek(t)` once the element reports `seeked`, the server re-broadcasts it to the page's own connection, and the session stays where the first seek left it |
| Echo.AnswersKeepEchoing | server.js:43-46 | once the session holds t, each answer of the page leaves the session exactly as it was and sends the page's connection one more `seek(t)`, so n answers send n seeks |
| Echo.EchoNeverSettles | server.js:43-46 | if the element reports `seeked` after every seek, a seek to t followed by n answers of the page sends the page's connection exactly n + 1 `seek(t)` messages, the last of which calls for another answer, so the exchange never becomes quiet |
| Echo.SeekRoundTrip | server.js:43-46 | the same round trip on a `SessionServer` and a `ViewerPage` object: the server ends in the state of the two seeks and the page in the state after applying the seek and `seeked` (video, connections, source and paused unchanged, flag down at position t), and both the first broadcast and the echo send `seek(t)` to the page's connection |

## Left out

- Express setup, static file serving, the 50 MB body limit and `server.listen`: HTTP plumbing that never touches the session.
- The storage service and its `upload_stream` call are not modelled. The upload's outcome is an input: an error (the callback's error, or an exception caught by the outer `catch`), a stored URL, or neither. Both 500 replies are one `ServerError`, and their message texts are not modelled.
- The reply bodies (JSON messages) are not modelled beyond their status and the published URL.
- Socket.IO transport is not modelled: delivery, buffering, interleaving across connections and connection ids. A broadcast is a list of addressed emits, and connections are a set of ids given by the caller.
- The `<video>` element's own behaviour is not modelled: whether setting `currentTime` fires `seeked`, when `timeupdate` fires, what `load()` resets, and whether `play()` fails. Its notifications are inputs that may arrive in any order, and the lemmas hold for any player state. `Client.OnLoadVideo` records only the new source.
- The DOM lookups, the upload button handler, `FileReader`, `fetch` and `alert` in public/script.js are UI and I/O.
- `console.log` and `console.error` calls.
- `time` is a JavaScript number that the program never computes on; it is a `real` here. Payloads are not validated by the program; a non-numeric `time` is not modelled.
- The request body is a byte sequence or nothing. The case where the raw parser leaves a non-buffer body is not modelled.
