# Video proctoring: event relay and client event log

This project models the core of the video proctoring system in Dafny:

- **Client component** (`ProctorClient`, from `Proctor.tsx`). It turns face-tracking results and object detections into proctoring events (`NoFace`, `FocusLost`, `ObjectDetected`, `VideoUploaded`). It keeps the newest 200 events in a local log, newest first. It sends each event once to the server, tagged with the session id. It also buffers recorded video chunks until the recorder stops.
  - It is the class `ProctorClient.Proctor`. Its fields are the component's mutable state: the two face timers, the per-class object log times, the log, the messages sent and the chunk buffer.
  - Ghost fields hold what has happened so far: the events logged, the face results seen and the chunks recorded. Validity predicates tie each field to a pure function of that history.
- **Relay server** (`Relay`, from `index.ts`).
  - A `join-session` message adds the socket to a room.
  - A `proctor-event` message is first broadcast to every socket in the room named by its `sessionId`, the sender included.
  - A log record is then built from the message and saved. A failed save, whether a validation error or a store failure, is caught and changes nothing else.
  - The server state is a value (`ServerState`) with pure transitions (`Join`, `Broadcast`, `HandleEvent`, `Deliver`, `Replay`).
  - The class `Relay.Server` holds the same state in fields. Each of its handler methods is proved to perform exactly that transition.
- **Log schema** (`LogModel`, from `Log.model.ts`). It fills the `ts` default when a document is built. It checks the two `required` String paths, `type` and `sessionId`, before anything is written.
- **Whole-system properties** (`Scenarios`). These compose the handlers over runs of messages: two sockets in one session, two sockets in different sessions, and a client's whole outgoing stream fed to the server.

Clock readings, the result of the face-orientation geometry, the upload outcome and the store outcome are all parameters:

- `now`, in milliseconds;
- `offCenter`;
- `uploadThrows`;
- `storeFails`.

Three behaviours of the code are easy to misread; the model follows the code in each:

- **Empty `sessionId`.** One might expect an event with an empty `sessionId` to reach nobody. The handler broadcasts before any check (`index.ts:50`), so the event still reaches the members of that room. Only the save is refused (`Relay.NoSessionNotStored`).
- **Repeated joins.** The join handler never leaves a room, so memberships accumulate (`Relay.JoinIsAdditive`).
- **Own-id room.** Every socket is also in the room named by its own id, as socket.io does on connection.

## Model

| member | source | states |
|---|---|---|
| LogModel.RequiredString | backend/src/models/Log.model.ts:4-7 | a `required` String path passes iff the value is present and is not the empty string |
| LogModel.ApplyDefaults | backend/src/models/Log.model.ts:6 | after defaulting, `ts` is always present: the given value if any, otherwise the build time; no other field changes |
| LogModel.Validate | backend/src/models/Log.model.ts:3-9 | a document is accepted iff `type` and `sessionId` are both present and non-empty; on rejection, the error names exactly the failing paths; an accepted record copies every field, with `ts` the given value or the build time |
| LogModel.RevalidateStored | backend/src/models/Log.model.ts:3-9 | a stored record passes validation again unchanged, whatever the later build time |
| ProctorClient.Prepend | frontend/src/components/Proctor.tsx:82 | the new log starts with the event, followed by the old log in order, truncated to 200 entries; once full, the oldest entry is dropped |
| ProctorClient.Newest | frontend/src/components/Proctor.tsx:82 | the log of a history holds min(length, 200) entries: the newest events, newest first |
| ProctorClient.PushLogKeepsNewest | frontend/src/components/Proctor.tsx:82 | prepending one event to the log of a history gives the log of that history extended by the event, so the displayed log is always the newest 200 events logged |
| ProctorClient.Tagged | frontend/src/components/Proctor.tsx:83 | the message sent for an event carries the component's session id, the event's type, detail and time, and no candidate id |
| ProctorClient.Outgoing | frontend/src/components/Proctor.tsx:83 | exactly one outgoing `proctor-event` message per logged event |
| ProctorClient.FaceStep | frontend/src/components/Proctor.tsx:86-110 | NoFace is raised iff no face is seen and more than 10000 ms have passed since the last face; FocusLost is raised iff a face is off-centre and more than 5000 ms have passed since it last looked centred; no other alert is raised; the exact new value of each timer |
| ProctorClient.FaceRunBounds | frontend/src/components/Proctor.tsx:86-110 | over a chronological run of results, both timers never decrease and never pass the latest reading; the face timer is at least every face-present reading; the centre timer is at least every centred reading; NoFace and FocusLost alert times are at most the face timer and the centre timer respectively |
| ProctorClient.NoFaceRequiresAbsence | frontend/src/components/Proctor.tsx:104-108 | a NoFace alert implies more than 10000 ms since set-up, since every face-present result and since every earlier NoFace alert |
| ProctorClient.FocusLostRequiresLookingAway | frontend/src/components/Proctor.tsx:96-103 | a FocusLost alert implies more than 5000 ms since set-up, since every centred result and since every earlier FocusLost alert |
| ProctorClient.LastLogged | frontend/src/components/Proctor.tsx:118 | the last logged time of a class is its map entry, or 0 when the class was never logged |
| ProctorClient.DetectStep | frontend/src/components/Proctor.tsx:115-122 | one prediction logs at most one event, `ObjectDetected` for its class at `now`; it logs iff the class is interesting and more than 3000 ms have passed since it was last logged; then, and only then, its time becomes `now` |
| ProctorClient.DetectFrame | frontend/src/components/Proctor.tsx:112-125 | a frame logs at most one event per prediction |
| ProctorClient.DetectFrameTimes | frontend/src/components/Proctor.tsx:112-125 | a detection frame sets the logged time of exactly the classes that fired (interesting, predicted, out of cooldown) to `now`; every other entry is left as it was |
| ProctorClient.DetectFrameAlerts | frontend/src/components/Proctor.tsx:112-125 | a frame logs one `ObjectDetected` event for each class that fired, however often it was predicted, and nothing else; the events are pairwise distinct |
| ProctorClient.UninterestingFrameIgnored | frontend/src/components/Proctor.tsx:113-116 | a frame with no interesting class changes no time and logs nothing |
| ProctorClient.AlertIffFired | frontend/src/components/Proctor.tsx:116-122 | a frame logs an event for a class iff that class fired |
| ProctorClient.ThrottledWithinCooldown | frontend/src/components/Proctor.tsx:117-122 | after a class is logged at `t1`, the next frame, if it comes within 3000 ms after `t1`, does not log it again (any run of frames: `DetectRunSpacing`) |
| ProctorClient.DetectRunLogged | frontend/src/components/Proctor.tsx:112-125 | after any run of frames, every logged event is an `ObjectDetected` for a class whose logged time is at or after the event's time |
| ProctorClient.DetectRunSpacing | frontend/src/components/Proctor.tsx:117-122 | over any run of frames, two `ObjectDetected` events for the same class are more than 3000 ms apart, the later event having the later time |
| ProctorClient.Concat | frontend/src/components/Proctor.tsx:65 | the blob built from a list of chunks has as many bytes as the chunks together |
| ProctorClient.ConcatAppend | frontend/src/components/Proctor.tsx:65 | the blob of two lists of chunks is the blob of the first followed by the blob of the second |
| ProctorClient.NonEmpty | frontend/src/components/Proctor.tsx:63 | the buffered chunks are all non-empty and number no more than the recorded ones |
| ProctorClient.EmptyChunksAddNothing | frontend/src/components/Proctor.tsx:63-65 | the blob built from the buffered chunks has the same bytes as one built from every recorded chunk |
| ProctorClient.Proctor.constructor | frontend/src/components/Proctor.tsx:22-30 | set-up emits `join-session` with the session id, starts both face timers at the mount time, and begins with an empty log, object-time map and chunk buffer |
| ProctorClient.Proctor.PushLog | frontend/src/components/Proctor.tsx:81-84 | the log becomes `Prepend(e, old log)` and exactly one tagged `proctor-event` is appended to the messages sent; the log stays the newest 200 events logged |
| ProctorClient.Proctor.HandleFaceResults | frontend/src/components/Proctor.tsx:86-110 | the timers and the events logged are exactly those of `FaceStep` on the old timers; validity is kept |
| ProctorClient.Proctor.HandlePrediction | frontend/src/components/Proctor.tsx:114-124 | one prediction updates the object times and logs events exactly as `DetectStep` says |
| ProctorClient.Proctor.ForEachPrediction | frontend/src/components/Proctor.tsx:114-124 | after the loop, the object times and the events logged are those of `DetectFrame` over the whole frame |
| ProctorClient.Proctor.HandleObjectDetections | frontend/src/components/Proctor.tsx:112-125 | the object times and the events logged are those of `DetectFrame` over the frame; the frame is added to the frames handled, and over all frames handled since set-up, two events for the same class stay more than 3000 ms apart |
| ProctorClient.Proctor.OnDataAvailable | frontend/src/components/Proctor.tsx:63 | a chunk is buffered iff it is non-empty |
| ProctorClient.Proctor.OnStop | frontend/src/components/Proctor.tsx:64-75 | the uploaded body is the concatenation of every chunk recorded since the last stop; `VideoUploaded` is logged iff the upload did not throw; the buffer is emptied either way |
| Relay.Join | backend/src/index.ts:46 | a join keeps the set of connected sockets and adds the room to the socket's rooms |
| Relay.JoinIsAdditive | backend/src/index.ts:45-47 | a join keeps all of the socket's earlier rooms; only the joined room's members change, and only by that socket |
| Relay.JoinIdempotent | backend/src/index.ts:45-47 | joining the same room twice gives the same membership as joining once |
| Relay.Broadcast | backend/src/index.ts:50 | every member of the room, the sender included, receives the message once, appended to its inbox; every other socket's inbox is unchanged |
| Relay.HandleEventInbox | backend/src/index.ts:50 | one event is appended to socket `s`'s inbox iff `s` is in the room its `sessionId` names |
| Relay.BuildDoc | backend/src/index.ts:54-60 | the document copies `type`, `detail` and `sessionId`; `ts` is the payload's value, or the receipt time when there is none; `candidateId` is kept iff present and non-empty |
| Relay.HandlerDocNeedsNoDefault | backend/src/index.ts:57 | the schema's `ts` default never applies to a document the handler builds |
| Relay.RecordFor | backend/src/index.ts:54-61 | a payload yields a row iff its `type` and `sessionId` are present and non-empty |
| Relay.RecordForPayload | backend/src/index.ts:54-61 | a payload yields a row iff its `type` and `sessionId` are non-empty; the row copies the payload, with the receipt time as the fallback `ts` |
| Relay.HandleEvent | backend/src/index.ts:49-66 | the inboxes are those of the broadcast; the store gains the row iff validation passes and the write succeeds; otherwise exactly one save error is recorded; rooms are unchanged |
| Relay.NoSessionNotStored | backend/src/index.ts:50-61 | an event without a usable `sessionId` is never stored, but is still broadcast to that room's members |
| Relay.Connect | backend/src/index.ts:42 | a new socket gets an empty inbox and only its own-id room; every other socket and the store are unchanged |
| Relay.Deliver | backend/src/index.ts:42-67 | dispatching a message keeps the state well-formed and the set of connected sockets unchanged |
| Relay.Replay | backend/src/index.ts:42-67 | a run of messages keeps the state well-formed and the set of connected sockets unchanged |
| Relay.StoreFailuresDoNotAffectRelay | backend/src/index.ts:53-65 | over any run of messages, failed saves leave every socket's rooms and inbox exactly as if every save had succeeded |
| Relay.EventsReplayInboxes | backend/src/index.ts:49-51 | over a run of events from connected sockets, no membership changes, and each socket receives exactly the events for its rooms, in arrival order |
| Relay.EventsReplayStore | backend/src/index.ts:53-62 | over the same run, the store grows by exactly the saved rows, one per successfully saved event, in arrival order |
| Relay.Server.constructor | backend/src/index.ts:42 | the server starts with no sockets, no rows and no save errors |
| Relay.Server.OnConnection | backend/src/index.ts:42-43 | the new state is `Connect` of the old |
| Relay.Server.OnJoinSession | backend/src/index.ts:45-47 | the new state is the join delivered to the old one, and the rooms are `Join` of the old |
| Relay.Server.OnProctorEvent | backend/src/index.ts:49-66 | the new state is `HandleEvent` of the old: the broadcast comes first, then build, validation and save, and a failed save is caught |
| Relay.Server.OnMessage | backend/src/index.ts:42-67 | the new state is `Deliver` of the old |
| Scenarios.ReplayAppend | backend/src/index.ts:42-67 | handling two runs one after the other is handling their concatenation |
| Scenarios.SameSessionPeerReceives | backend/src/index.ts:45-62 | two sockets join a session and one emits a valid event: both receive it once, and exactly one row is stored, with the receipt time as `ts` when the payload had none |
| Scenarios.OtherSessionReceivesNothing | backend/src/index.ts:45-50 | a socket in a different session receives nothing from the event, while the sender receives it |
| Scenarios.EventsForSession | backend/src/index.ts:50 | every message of a client's stream reaches a socket that joined its session, in order |
| Scenarios.SavedSession | backend/src/index.ts:53-61 | every event a client sends is stored once, as a row of its session, when the session id and each kind are non-empty and no save fails |
| Scenarios.ClientStreamReachesSession | frontend/src/components/Proctor.tsx:81-84 | when a client's join and its logged events are handled, every socket already in the session, and the client itself, receives each event once, in the order logged |
| Scenarios.ClientStreamStored | frontend/src/components/Proctor.tsx:81-84 | when no save fails, the same stream adds to the store one row per logged event, in the order logged, provided the session id and every kind are non-empty |

## Left out

- Camera, face-mesh and object-detection models: their outputs enter as parameters. A face result is `facePresent` plus `offCenter`, and a detection frame is a list of class names.
- The geometry of the off-centre test (the nose against the eye midpoint, with threshold 0.08): it needs floating point, and it enters as the boolean `offCenter`.
- ProctorClient.Proctor.HandleFaceResults: reads the clock once per result. The source reads `Date.now()` again in the no-face branch and again for each event's ISO timestamp. Here all of these are the same `now`.
- ProctorClient.Proctor.HandleObjectDetections: reads the clock once per frame. The source reads it once per interesting prediction, inside a synchronous loop.
- Timestamps are integers in milliseconds. The client's ISO-8601 strings, and their conversion by the schema's Date cast, are not modelled. Neither is JavaScript's falsiness of a numeric `ts` of 0.
- The `MediaRecorder` itself, its 30-second timeslice, the `FormData` upload and its file name: the upload outcome is the parameter `uploadThrows`. `fetch` resolving on an HTTP error status counts as no throw. Nothing in the source ever stops the recorder; `OnStop` models the handler as written.
- React rendering, state batching and effect clean-up: the model does not cover the socket disconnect on unmount, or a remount when `sessionId` changes.
- The socket.io transport: delivery latency, reconnection and interleaving between sockets are not modelled. Messages are handled one at a time, in arrival order.
- Disconnection: the source registers no handler for it, and socket.io's automatic room clean-up is not modelled.
- The MongoDB write itself: it becomes `storeFails`. Console logging, `startServer`, the database connection and signal handling are not modelled.
- Payload shapes: every payload is an object whose fields are strings or absent. A missing or `null` payload is not modelled: the handler throws at `data.sessionId` (`index.ts:50`) before any broadcast, and the rejection is only logged by the hook at `index.ts:12-14`. Neither is an array passed to `socket.join` (`index.ts:46`), which joins several rooms, nor a non-string `sessionId`, where the room takes the raw value but the schema casts the stored row's field to a String.
- The upload and report routes (`upload.ts`, `report.ts`) are not part of this model.
