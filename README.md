# Shared watch session: a verified model of its synchronisation core

The shared watch session keeps one YouTube video playing in step for every
participant. A Node server owns a single global session record: which video,
whether it plays, the position and the instant that position was recorded,
and how many sockets are connected. Clients send it intents (`changeVideo`,
`play`, `pause`, `seek`, periodic `timeUpdate`). It updates the record and
re-broadcasts them. Every 5 s it also broadcasts the extrapolated position as
`timeSync`. Each browser client runs a reconciler. The reconciler applies
inbound corrections to its player. While a correction settles (500 ms), an
`isSyncing` flag swallows the player's own notifications, so corrections are
not echoed back. A 500 ms sampler detects seeks the user makes, and a 2 s
reporter sends the position to the server.

This project models both halves in Dafny:

- `Authority.dfy` (module `Authority`): the server's handlers and drift tick,
  written as pure functions over the session record. Each takes one `now` in
  milliseconds and returns the new record and the messages it emits. Every
  message is tagged with who receives it: the sender, everybody but the
  sender, or everybody. The module also holds the lemmas about sequences of
  events.
- `Server.dfy` (module `Server`): class `SessionAuthority`. It holds the
  record's fields and has one method per handler. Each method updates the
  fields in place as the server does and is proved equal to its function in
  `Authority`.
- `VideoId.dfy` (module `VideoId`): `extractVideoId`, with the regular
  expression's real matching behaviour written out.
- `Reconciler.dfy` (module `Reconciler`): the client's handlers, player
  notifications and timers, written as pure functions over the client state.
  The module also holds the invariant and the suppression, convergence and
  bootstrap lemmas.
- `Client.dfy` (module `ClientApp`): class `YouTubePlayer`, an abstract player
  with a position and a playing flag, and class `WatchClient`. `WatchClient`'s
  methods command the player and update the flag, the refs and the pending
  timers step by step. Each method is proved equal to its function in
  `Reconciler` and keeps the invariant.
- `Common.dfy` and `Protocol.dfy`: `Option`, `Abs`, JavaScript truthiness of a
  URL, and the socket message shapes.

Positions are `real` seconds and instants are `int` milliseconds. Elapsed time
is `(now - lastUpdateTime) / 1000`, as the server computes it. Timers are
explicit events:

- `Settle` is a 500 ms timeout that clears `isSyncing`.
- `BootstrapFire` is the 1000 ms timeout of the `sessionState` handler.
- `SeekTick` is one run of the seek detector.
- `ReportTick` is one run of the reporter.

React state setters take effect at once. When `isPlaying` changes, the two
effects that depend on it run again. The seek detector then restarts from
`lastSyncTime`, and it exists only if a player exists. The reporter exists
only if a player exists and the session plays.

Behaviour the model keeps exactly as the code has it, where a reader might expect otherwise:

- The snapshot a new socket receives carries the stored `currentTime`, not
  the position extrapolated to the time of connection (server/src/server.ts:64).
- `changeVideo` stores any URL, the empty string included. An empty URL then
  keeps the drift tick idle, because the tick tests the URL's truthiness.
- `play` and `pause` keep the stored position when the supplied one is 0
  (`currentTime || sessionState.currentTime`).
- An inbound `seek` on the client always seeks, with no 1 s threshold
  (client/src/App.tsx:138). Only `play` and `pause` apply the 1 s threshold.
- While a correction settles, the seek detector does not move its reference
  sample (client/src/App.tsx:226).
- The `sessionState` bootstrap ignores a snapshot whose URL yields no
  11-character id, so a snapshot with the URL "xyz" is ignored.

## Model

| member | source | states |
|---|---|---|
| Authority.Initial | server/src/server.ts:30-36 | the record at start: no URL, paused at 0, no users, last update at start |
| Authority.Expected | server/src/server.ts:144-147 | extrapolation equals the stored position when paused or at the last update, and never falls behind it while playing |
| Authority.ExpectedMonotone | server/src/server.ts:144-147 | the expected position never decreases with time and strictly increases while playing |
| Authority.OnConnect | server/src/server.ts:58-70 | only the user count changes (+1); the sender alone receives the snapshot with the stored, non-extrapolated position; then everybody receives the new count |
| Authority.OnDisconnect | server/src/server.ts:157-161 | only the user count changes (-1), and everybody receives it |
| Authority.ConnectThenDisconnectRestores | server/src/server.ts:58-70 | a connection followed by a disconnection restores the whole record and re-announces the original count |
| Authority.OnChangeVideo | server/src/server.ts:73-88 | the URL is stored unvalidated; position 0, paused, last update now, count kept; only the other sockets get `videoChanged` |
| Authority.Fallback | server/src/server.ts:94 | a supplied 0 is falsy and yields the stored position; any other value is taken |
| Authority.OnPlay | server/src/server.ts:91-105 | playing, last update now, position per the falsy fallback, URL and count kept; others get `play` with the stored result |
| Authority.OnPause | server/src/server.ts:108-122 | as play but paused, with a `pause` broadcast to others |
| Authority.OnSeek | server/src/server.ts:125-138 | the position is overwritten unconditionally (0 included), last update now, everything else kept; others get `seek` |
| Authority.OnTimeUpdate | server/src/server.ts:141-154 | emits nothing, never changes URL, play state or count, and either leaves the record unchanged or takes (p, now) |
| Authority.TimeUpdateAcceptedIffWithinTolerance | server/src/server.ts:144-153 | a report is taken when it is strictly within 2 s of the expected position; otherwise the record is entirely unchanged |
| Authority.TimeUpdateBoundary | server/src/server.ts:150 | 1.999 s off is accepted on both sides; exactly 2 s off is rejected on both sides |
| Authority.TimeUpdateMovesTimelineLessThanTolerance | server/src/server.ts:141-154 | one report moves the extrapolated timeline by less than 2 s at every later instant |
| Authority.DriftTick | server/src/server.ts:40-54 | acts only while playing with a truthy URL: re-bases (position, instant) to now and sends `timeSync` with the new position to all; otherwise no change, no message |
| Authority.DriftTickPreservesTimeline | server/src/server.ts:41-45 | a drift tick never changes the expected position at any instant |
| Authority.ExactReportMatchesDriftTick | server/src/server.ts:141-153 | a report of exactly the expected position leaves the record as a drift tick would, with no broadcast |
| Authority.IntentKeepsCountAndUrl | server/src/server.ts:73-154 | no client message changes the user count, and only `changeVideo` changes the URL |
| Authority.RunUserCount | server/src/server.ts:58-161 | after any event sequence the count is the initial one plus connections minus disconnections |
| Authority.RunVideoUrlIsLastChange | server/src/server.ts:73-161 | after any event sequence the URL is the one the last `changeVideo` gave, or the initial one |
| Authority.PositioningLastWriteWins | server/src/server.ts:91-138 | after any sequence of play/pause/seek messages, position and last update are the last message's position and instant (for play/pause when that position is not 0); URL and count are kept |
| Authority.ReplayedPositioningIsIdempotent | server/src/server.ts:91-138 | re-applying the same `play`, `pause` or `seek` changes nothing but the instant |
| Server.SessionAuthority.constructor | server/src/server.ts:30-36 | the fields start as `Initial(now)` |
| Server.SessionAuthority.DriftTick | server/src/server.ts:40-54 | the in-place update and emitted messages equal `Authority.DriftTick` |
| Server.SessionAuthority.Connect | server/src/server.ts:56-70 | the in-place update and emitted messages equal `Authority.OnConnect` |
| Server.SessionAuthority.ChangeVideo | server/src/server.ts:73-88 | equals `Authority.OnChangeVideo` |
| Server.SessionAuthority.Play | server/src/server.ts:91-105 | equals `Authority.OnPlay` |
| Server.SessionAuthority.Pause | server/src/server.ts:108-122 | equals `Authority.OnPause` |
| Server.SessionAuthority.Seek | server/src/server.ts:125-138 | equals `Authority.OnSeek` |
| Server.SessionAuthority.TimeUpdate | server/src/server.ts:141-154 | equals `Authority.OnTimeUpdate` |
| Server.SessionAuthority.Disconnect | server/src/server.ts:157-161 | equals `Authority.OnDisconnect` |
| VideoId.MarkerAt | client/src/App.tsx:28-29 | a matching alternative of group 1 lies within the string |
| VideoId.FirstBreak | client/src/App.tsx:28-29 | the longest prefix without a line terminator, as far as the leading `.*` can reach |
| VideoId.LastMarker | client/src/App.tsx:28-30 | the greedy `.*` picks the rightmost marker position; no marker lies after it, and None means no marker at all |
| VideoId.RunEnd | client/src/App.tsx:29 | group 2 is the longest run of characters other than `#`, `&` and `?` |
| VideoId.Group2 | client/src/App.tsx:28-30 | the regex matches exactly when a reachable marker exists; group 2 is then exactly the text from the end of the rightmost reachable marker up to the first `#`, `&` or `?` or the end of the URL |
| VideoId.ExtractVideoId | client/src/App.tsx:26-32 | an id is returned exactly when the URL is non-empty, the regex matches and group 2 has 11 characters, and it is then group 2 itself; so it follows a marker and holds no `#`, `&` or `?` |
| VideoId.ExtractsIdAfterMarker | client/src/App.tsx:26-32 | any prefix without line terminators, followed by a literal marker and a real 11-character id, yields exactly that id |
| Reconciler.Mounted | client/src/App.tsx:15-23 | the initial state: no video, no player, not syncing, no timers or intervals |
| Reconciler.SetIsPlaying | client/src/App.tsx:220-277 | a change of `isPlaying` re-arms the detector (from `lastSyncTime`, only with a player) and the reporter (only with a player while playing); an unchanged value changes nothing |
| Reconciler.ActionSeek | client/src/App.tsx:95-102 | after an inbound play or pause the player is within 1 s of the target; it moves to the target only when strictly more than 1 s away |
| Reconciler.OnSessionState | client/src/App.tsx:50-76 | a falsy URL or one with no id is ignored; otherwise the video and `isPlaying` follow the snapshot, a bootstrap timeout is queued, the intervals re-run if `isPlaying` flipped, and nothing else changes |
| Reconciler.BootstrapFire | client/src/App.tsx:60-73 | with a player: raises the flag, seeks to the snapshot position unconditionally, plays or pauses per the snapshot, queues the clearing timeout, and nothing else changes (`isPlaying` included); without a player: only expires |
| Reconciler.OnVideoChanged | client/src/App.tsx:79-87 | a URL with an id is shown and marked paused, the intervals re-run if `isPlaying` was true, the player is not commanded and nothing else changes; any other URL is ignored |
| Reconciler.OnPlay | client/src/App.tsx:90-109 | without a player or while syncing: no change at all; otherwise raises the flag, marks playing (re-running the intervals on a change), seeks only beyond 1 s, plays, queues the clearing timeout, and nothing else changes |
| Reconciler.OnPause | client/src/App.tsx:112-131 | mirror of inbound play with pause and `isPlaying` false, with the same whole-state frame |
| Reconciler.OnSeek | client/src/App.tsx:134-143 | without a player or while syncing: no change; otherwise raises the flag and seeks to the target whatever the distance, leaving play state and `isPlaying` alone |
| Reconciler.OnTimeSync | client/src/App.tsx:146-160 | acts only with a player, not syncing and the closure's `isPlaying`; drift of at most 2 s leaves everything unchanged; more raises the flag and seeks; never plays or pauses |
| Reconciler.Settle | client/src/App.tsx:69-71 | the 500 ms timeout clears the flag and nothing else |
| Reconciler.Ready | client/src/App.tsx:197-199 | the mounted player becomes the client's player |
| Reconciler.EditUrl | client/src/App.tsx:316 | only the URL field changes |
| Reconciler.Submit | client/src/App.tsx:173-182 | a URL with an id is shown and sent as `changeVideo` with the typed URL; any other URL sends nothing and changes nothing |
| Reconciler.PlayerPlayed | client/src/App.tsx:202-208 | while syncing or without a player: nothing sent or changed; otherwise sends `play` with the player position and marks playing |
| Reconciler.PlayerPaused | client/src/App.tsx:211-217 | mirror with `pause` |
| Reconciler.StateChange | client/src/App.tsx:257-262 | on PLAYING with a player, `lastSyncTime` takes the player position; otherwise nothing changes |
| Reconciler.SeekTick | client/src/App.tsx:225-249 | while syncing or disarmed: nothing; playing: sends `seek` exactly when the jump exceeds 2.5 s and always moves the reference; paused: sends exactly when the move exceeds 0.1 s and moves the reference only then |
| Reconciler.ReportTick | client/src/App.tsx:268-274 | while syncing or disarmed: nothing; otherwise sends `timeUpdate` with the player position and records it in `lastSyncTime` |
| Reconciler.SuppressedClientIsSilent | client/src/App.tsx:92-274 | while syncing, play/pause notifications, the detector and the reporter send nothing, and inbound play, pause, seek and timeSync change nothing |
| Reconciler.CorrectionIsNotEchoed | client/src/App.tsx:92-216 | right after an inbound play, pause or seek is applied, the resulting player notifications, detector and reporter send nothing back |
| Reconciler.SeekDetectorBoundary | client/src/App.tsx:233-244 | while playing, a 2.5 s jump is not a seek and 2.51 s is; while paused, 0.1 s is not and 0.11 s is |
| Reconciler.StepKeepsValid | client/src/App.tsx:50-274 | every event keeps the invariant: the flag is up only while a clearing timeout is pending, a player only under a shown video, intervals only with a player (the reporter only while playing) |
| Reconciler.RunKeepsValid | client/src/App.tsx:50-274 | every state reachable from mount satisfies that invariant |
| Reconciler.SuppressionClears | client/src/App.tsx:69-71 | in any valid state, once the pending timeouts have fired the flag is down, with player and `isPlaying` untouched |
| Reconciler.InboundConverges | client/src/App.tsx:90-160 | after an applied play/pause the player is within 1 s of the target in the requested state; after seek it is at the target; after an acting timeSync it is within 2 s |
| Reconciler.TimeSyncAsWrittenIsInert | client/src/App.tsx:146-170 | with the mount-time closure (`isPlaying` false), `timeSync` never changes anything |
| Reconciler.TimeSyncWithCurrentStateConverges | client/src/App.tsx:146-158 | reading the current `isPlaying`, a playing client ends within 2 s of the server position and moves only if it was further |
| Reconciler.JoinPlayingSession | client/src/App.tsx:50-73 | a joining client shows the video, is seeked to the snapshot position and played under suppression, and the 500 ms timeout clears the flag; a later `timeSync` then leaves the player where it is, as written (App.tsx:146-147, 170); only with the corrected closure would it seek a player more than 2 s off |
| ClientApp.WatchClient.constructor | client/src/App.tsx:15-23 | the fields start as `Mounted()` |
| ClientApp.WatchClient.SetIsPlaying | client/src/App.tsx:220-277 | equals `Reconciler.SetIsPlaying` |
| ClientApp.WatchClient.OnSessionState | client/src/App.tsx:50-76 | equals `Reconciler.OnSessionState` and keeps the invariant |
| ClientApp.WatchClient.BootstrapFire | client/src/App.tsx:60-73 | commands the player as `Reconciler.BootstrapFire` says and keeps the invariant |
| ClientApp.WatchClient.OnVideoChanged | client/src/App.tsx:79-87 | equals `Reconciler.OnVideoChanged` |
| ClientApp.WatchClient.OnPlay | client/src/App.tsx:90-109 | commands the player as `Reconciler.OnPlay` says |
| ClientApp.WatchClient.OnPause | client/src/App.tsx:112-131 | commands the player as `Reconciler.OnPause` says |
| ClientApp.WatchClient.OnSeek | client/src/App.tsx:134-143 | commands the player as `Reconciler.OnSeek` says |
| ClientApp.WatchClient.OnTimeSync | client/src/App.tsx:146-160 | commands the player as `Reconciler.OnTimeSync` says |
| ClientApp.WatchClient.Settle | client/src/App.tsx:69-71 | equals `Reconciler.Settle` |
| ClientApp.WatchClient.Ready | client/src/App.tsx:197-199 | equals `Reconciler.Ready` |
| ClientApp.WatchClient.EditUrl | client/src/App.tsx:316 | equals `Reconciler.EditUrl` |
| ClientApp.WatchClient.HandleVideoSubmit | client/src/App.tsx:173-182 | state and message equal `Reconciler.Submit` |
| ClientApp.WatchClient.HandlePlay | client/src/App.tsx:202-208 | state and message equal `Reconciler.PlayerPlayed` |
| ClientApp.WatchClient.HandlePause | client/src/App.tsx:211-217 | state and message equal `Reconciler.PlayerPaused` |
| ClientApp.WatchClient.HandleStateChange | client/src/App.tsx:257-262 | equals `Reconciler.StateChange` |
| ClientApp.WatchClient.CheckSeek | client/src/App.tsx:225-249 | state and message equal `Reconciler.SeekTick` |
| ClientApp.WatchClient.ReportTime | client/src/App.tsx:268-274 | state and message equal `Reconciler.ReportTick` |

## Findings

| source | as written | input that shows it | evidently intended | confidence | as-written member | corrected member |
|---|---|---|---|---|---|---|
| client/src/App.tsx:146-147 | the `timeSync` handler reads `isPlaying` from the closure of the effect with dependencies `[]` (line 170). That closure holds the initial `false`, so the handler never acts | a playing client with a player at 0 s and no correction settling receives `timeSync` at 30 s; it stays at 0 s | a playing client that drifted more than 2 s seeks to the server position | high, not executed | `Reconciler.TimeSyncAsWrittenIsInert` | `Reconciler.TimeSyncWithCurrentStateConverges` |

`WatchClient.OnTimeSync` takes the closure's `isPlaying` as a parameter, so it
covers both readings. Passing `false` gives the behaviour as written. Passing
the current `isPlaying` gives the corrected one.

## Left out

- Transport and I/O: the Express, HTTP, CORS and socket.io setup and `listen`,
  the client socket creation, the connect/disconnect flags, `close`, every
  `console.log`, and the `alert` on a refused URL. A refused submit is
  modelled as sending nothing. The socket is taken as always present, so the
  `socket &&` guards always pass.
- UI: the JSX rendering, the player options, the user-count display and the
  client's `userCount` handler (client/src/App.tsx:163-165), which only feeds
  that display.
- Real timers: timeouts and intervals are events that the environment
  triggers. The model does not constrain when they fire relative to each
  other, beyond first-in first-out order among timeouts of the same kind.
- The YouTube player is foreign code. `seekTo`, `playVideo` and `pauseVideo`
  set its position and playing flag. Its own playback progress, the user's
  scrubbing and the loading of a new video when the id changes are not
  modelled. Its play/pause/state-change notifications are separate events, not
  consequences of the commands.
- Number semantics: positions are exact reals, not IEEE doubles. For the
  falsy fallback of `play` and `pause`, only 0 is falsy; NaN and a missing
  field are not modelled.
- Each server handler reads `Date.now()` several times. The model uses one
  `now` per event.
- VideoId.ExtractVideoId: does not model JavaScript's UTF-16 length. The
  11-character check counts Unicode scalar values, so ids containing
  characters outside the Basic Multilingual Plane are measured differently.
- The type-declaration files are mirrored as datatypes in `Protocol.dfy`.
  Nothing is proved about them.
