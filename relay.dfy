/**
 * The relay server's socket handlers: a `join-session` message adds the
 * socket to a room; a `proctor-event` message is broadcast to every socket
 * in the room named by its `sessionId`, the sender included, and a log
 * record is then built from it and saved, a failed save being caught and
 * logged without touching the broadcast.
 *
 * Rooms are explicit: each connected socket has the set of rooms it is in
 * and an inbox of the `event` messages delivered to it. A room is the value
 * a client named, which may be absent; every socket is also in the room
 * named by its own id, as socket.io does on connection.
 */
module Relay {
  import opened Wrappers
  import opened Wire
  import opened LogModel

  type SocketId = string
  type Room = Option<string>
  type Rooms = map<SocketId, set<Room>>
  type Inboxes = map<SocketId, seq<Message>>

  /** Why a save was caught and logged. */
  datatype SaveError = Invalid(error: ValidationError) | StoreUnavailable

  datatype ServerState = ServerState(
    rooms: Rooms,
    inboxes: Inboxes,
    store: seq<LogRecord>,
    saveErrors: seq<SaveError>)

  /** Every connected socket has an inbox, is in its own room, and every stored row has its required fields. */
  ghost predicate WellFormed(st: ServerState) {
    && st.rooms.Keys == st.inboxes.Keys
    && (forall s :: s in st.rooms ==> Some(s) in st.rooms[s])
    && (forall k :: 0 <= k < |st.store| ==> st.store[k].kind != "" && st.store[k].sessionId != "")
  }

  /** The sockets currently in `room`. */
  function Members(rooms: Rooms, room: Room): set<SocketId> {
    set s | s in rooms && room in rooms[s]
  }

  // ---------------------------------------------------------------------
  // join-session

  /** `socket.join(room)`. */
  function Join(rooms: Rooms, s: SocketId, room: Room): (r: Rooms)
    requires s in rooms
    ensures r.Keys == rooms.Keys
    ensures r[s] == rooms[s] + {room}
  {
    rooms[s := rooms[s] + {room}]
  }

  /**
   * A join adds the socket to the room and keeps it in every room it was
   * in: only the joined room's members change, and only by that socket.
   */
  lemma JoinIsAdditive(rooms: Rooms, s: SocketId, room: Room, q: Room)
    requires s in rooms
    ensures Join(rooms, s, room).Keys == rooms.Keys
    ensures rooms[s] <= Join(rooms, s, room)[s] && room in Join(rooms, s, room)[s]
    ensures Members(Join(rooms, s, room), q) == Members(rooms, q) + (if q == room then {s} else {})
  {
    var r := Join(rooms, s, room);
    forall t ensures t in Members(r, q) <==> t in Members(rooms, q) + (if q == room then {s} else {}) {
      if t == s {
        assert r[t] == rooms[s] + {room};
      }
    }
  }

  /** Joining a room twice gives the same membership as joining it once. */
  lemma JoinIdempotent(rooms: Rooms, s: SocketId, room: Room)
    requires s in rooms
    ensures Join(Join(rooms, s, room), s, room) == Join(rooms, s, room)
  {
    assert Join(rooms, s, room)[s] + {room} == Join(rooms, s, room)[s];
  }

  // ---------------------------------------------------------------------
  // proctor-event

  /** `io.to(room).emit('event', msg)`: one copy to each member, nothing to any other socket. */
  function Broadcast(rooms: Rooms, inboxes: Inboxes, room: Room, msg: Message): (r: Inboxes)
    requires rooms.Keys == inboxes.Keys
    ensures r.Keys == inboxes.Keys
    ensures forall s :: s in Members(rooms, room) ==> r[s] == inboxes[s] + [msg]
    ensures forall s :: s in inboxes && s !in Members(rooms, room) ==> r[s] == inboxes[s]
  {
    map s | s in inboxes :: if room in rooms[s] then inboxes[s] + [msg] else inboxes[s]
  }

  /**
   * The document the handler builds from a payload received at `now`:
   * `type`, `detail` and `sessionId` are copied; `ts` is the payload's when
   * it has one and the receipt time otherwise; `candidateId` is the
   * payload's when it is a non-empty string and null otherwise.
   */
  function BuildDoc(data: Message, now: int): (doc: LogDoc)
    ensures doc.kind == data.kind && doc.detail == data.detail && doc.sessionId == data.sessionId
    ensures data.ts.Some? ==> doc.ts == data.ts
    ensures data.ts.None? ==> doc.ts == Some(now)
    ensures doc.candidateId.Some? <==> data.candidateId.Some? && data.candidateId.value != ""
    ensures doc.candidateId.Some? ==> doc.candidateId == data.candidateId
  {
    LogDoc(
      data.kind,
      data.detail,
      Some(match data.ts case Some(t) => t case None => now),
      data.sessionId,
      match data.candidateId
      case Some(c) => if c == "" then None else Some(c)
      case None => None)
  }

  /** The handler always supplies `ts`, so the schema's own default never applies to its documents. */
  lemma HandlerDocNeedsNoDefault(data: Message, now: int, later: int)
    ensures ApplyDefaults(BuildDoc(data, now), later) == BuildDoc(data, now)
  {
  }

  /** The row a payload received at `now` is saved as, or why it is rejected before any write. */
  function RecordFor(data: Message, now: int): (r: Result<LogRecord, ValidationError>)
    ensures r.Success? <==> RequiredString(data.kind) && RequiredString(data.sessionId)
  {
    Validate(BuildDoc(data, now), now)
  }

  /**
   * A payload is stored exactly when it names a non-empty `type` and
   * `sessionId`; the stored row copies the payload, with the receipt time
   * as `ts` when the payload had none.
   */
  lemma RecordForPayload(data: Message, now: int)
    ensures RecordFor(data, now).Success? <==> RequiredString(data.kind) && RequiredString(data.sessionId)
    ensures RecordFor(data, now).Success? ==>
      var rec := RecordFor(data, now).value;
      && Some(rec.kind) == data.kind && Some(rec.sessionId) == data.sessionId && rec.detail == data.detail
      && rec.ts == (if data.ts.Some? then data.ts.value else now)
      && (rec.candidateId.Some? <==> data.candidateId.Some? && data.candidateId.value != "")
  {
  }

  /**
   * The whole `proctor-event` handler: broadcast first, then build and save
   * the record; `storeFails` says whether the database write fails. A
   * failure of either kind is logged and changes nothing else.
   */
  function HandleEvent(st: ServerState, data: Message, now: int, storeFails: bool): (r: ServerState)
    requires WellFormed(st)
    ensures WellFormed(r)
    ensures r.rooms == st.rooms
    ensures r.inboxes == Broadcast(st.rooms, st.inboxes, data.sessionId, data)
    ensures r.store == st.store + (if RecordFor(data, now).Success? && !storeFails then [RecordFor(data, now).value] else [])
    ensures r.saveErrors == st.saveErrors +
      (if RecordFor(data, now).Failure? then [Invalid(RecordFor(data, now).error)]
       else if storeFails then [StoreUnavailable] else [])
  {
    var inboxes := Broadcast(st.rooms, st.inboxes, data.sessionId, data);
    match RecordFor(data, now)
    case Failure(e) => st.(inboxes := inboxes, saveErrors := st.saveErrors + [Invalid(e)])
    case Success(rec) =>
      if storeFails then st.(inboxes := inboxes, saveErrors := st.saveErrors + [StoreUnavailable])
      else st.(inboxes := inboxes, store := st.store + [rec])
  }

  /** A payload without a usable `sessionId` is never stored; it is still broadcast to that room's members. */
  lemma NoSessionNotStored(st: ServerState, data: Message, now: int, storeFails: bool)
    requires WellFormed(st)
    requires !RequiredString(data.sessionId)
    ensures HandleEvent(st, data, now, storeFails).store == st.store
    ensures HandleEvent(st, data, now, storeFails).inboxes == Broadcast(st.rooms, st.inboxes, data.sessionId, data)
  {
  }

  // ---------------------------------------------------------------------
  // The connection gateway

  /** A socket connects; socket.io puts it in the room named by its own id. */
  function Connect(st: ServerState, s: SocketId): (r: ServerState)
    requires WellFormed(st)
    ensures WellFormed(r)
    ensures r.rooms.Keys == st.rooms.Keys + {s}
    ensures s !in st.rooms ==> r.rooms[s] == {Some(s)} && r.inboxes[s] == []
    ensures forall t :: t in st.rooms ==> r.rooms[t] == st.rooms[t] && r.inboxes[t] == st.inboxes[t]
    ensures r.store == st.store && r.saveErrors == st.saveErrors
  {
    if s in st.rooms then st
    else st.(rooms := st.rooms[s := {Some(s)}], inboxes := st.inboxes[s := []])
  }

  /** A message arriving on socket `s`, dispatched to its handler; a socket not connected sends nothing. */
  function Deliver(st: ServerState, s: SocketId, m: ClientMessage, now: int, storeFails: bool): (r: ServerState)
    requires WellFormed(st)
    ensures WellFormed(r)
    ensures r.rooms.Keys == st.rooms.Keys
  {
    if s !in st.rooms then st
    else
      match m
      case JoinSession(room) => st.(rooms := Join(st.rooms, s, room))
      case ProctorEvent(data) => HandleEvent(st, data, now, storeFails)
  }

  /** One message received by the server, with the receipt time and whether its save hits a store failure. */
  datatype Arrival = Arrival(sender: SocketId, msg: ClientMessage, now: int, storeFails: bool)

  /** The state after a sequence of arrivals, handled one after the other. */
  function Replay(st: ServerState, xs: seq<Arrival>): (r: ServerState)
    requires WellFormed(st)
    ensures WellFormed(r)
    ensures r.rooms.Keys == st.rooms.Keys
    decreases |xs|
  {
    if xs == [] then st
    else
      var x := xs[|xs| - 1];
      Deliver(Replay(st, xs[..|xs| - 1]), x.sender, x.msg, x.now, x.storeFails)
  }

  function WithoutFailures(xs: seq<Arrival>): (ys: seq<Arrival>)
    ensures |ys| == |xs|
    ensures forall i :: 0 <= i < |xs| ==> ys[i] == xs[i].(storeFails := false)
    decreases |xs|
  {
    if xs == [] then [] else WithoutFailures(xs[..|xs| - 1]) + [xs[|xs| - 1].(storeFails := false)]
  }

  /**
   * Store failures never reach the relay: whatever saves fail, every socket's
   * rooms and inbox are those of the same arrivals with every save succeeding.
   */
  /** Two states that agree on rooms and inboxes still agree after the same message, whatever each save does. */
  lemma DeliverIgnoresStore(a: ServerState, b: ServerState, s: SocketId, m: ClientMessage, now: int, fa: bool, fb: bool)
    requires WellFormed(a) && WellFormed(b)
    requires a.rooms == b.rooms && a.inboxes == b.inboxes
    ensures Deliver(a, s, m, now, fa).rooms == Deliver(b, s, m, now, fb).rooms
    ensures Deliver(a, s, m, now, fa).inboxes == Deliver(b, s, m, now, fb).inboxes
  {
  }

  lemma {:induction false} StoreFailuresDoNotAffectRelay(st: ServerState, xs: seq<Arrival>)
    requires WellFormed(st)
    ensures Replay(st, xs).rooms == Replay(st, WithoutFailures(xs)).rooms
    ensures Replay(st, xs).inboxes == Replay(st, WithoutFailures(xs)).inboxes
    decreases |xs|
  {
    if xs != [] {
      var p := xs[..|xs| - 1];
      var x := xs[|xs| - 1];
      var ys := WithoutFailures(xs);
      assert ys[..|ys| - 1] == WithoutFailures(p);
      assert ys[|ys| - 1] == x.(storeFails := false);
      StoreFailuresDoNotAffectRelay(st, p);
      DeliverIgnoresStore(Replay(st, p), Replay(st, WithoutFailures(p)), x.sender, x.msg, x.now, x.storeFails, false);
    }
  }

  /** The payloads of `proctor-event` arrivals for a room in `joined`, in arrival order. */
  function EventsFor(joined: set<Room>, xs: seq<Arrival>): seq<Message>
    decreases |xs|
  {
    if xs == [] then []
    else
      var x := xs[|xs| - 1];
      EventsFor(joined, xs[..|xs| - 1]) +
        (if x.msg.ProctorEvent? && x.msg.data.sessionId in joined then [x.msg.data] else [])
  }

  /** The rows saved for a sequence of arrivals, in arrival order. */
  function Saved(xs: seq<Arrival>): seq<LogRecord>
    decreases |xs|
  {
    if xs == [] then []
    else
      var x := xs[|xs| - 1];
      Saved(xs[..|xs| - 1]) +
        (if x.msg.ProctorEvent? && RecordFor(x.msg.data, x.now).Success? && !x.storeFails
         then [RecordFor(x.msg.data, x.now).value] else [])
  }

  /** What one `proctor-event` adds to the inbox of socket `s`. */
  lemma HandleEventInbox(st: ServerState, data: Message, now: int, storeFails: bool, s: SocketId)
    requires WellFormed(st) && s in st.inboxes
    ensures HandleEvent(st, data, now, storeFails).inboxes[s] ==
      st.inboxes[s] + (if data.sessionId in st.rooms[s] then [data] else [])
  {
    if data.sessionId in st.rooms[s] {
      assert s in Members(st.rooms, data.sessionId);
    } else {
      assert s !in Members(st.rooms, data.sessionId);
    }
  }

  predicate EventsFromConnected(st: ServerState, xs: seq<Arrival>) {
    forall i :: 0 <= i < |xs| ==> xs[i].msg.ProctorEvent? && xs[i].sender in st.rooms
  }

  lemma ConnectedPrefix(st: ServerState, xs: seq<Arrival>)
    requires xs != [] && EventsFromConnected(st, xs)
    ensures EventsFromConnected(st, xs[..|xs| - 1])
    ensures xs[|xs| - 1].msg.ProctorEvent? && xs[|xs| - 1].sender in st.rooms
  {
    var p := xs[..|xs| - 1];
    forall i | 0 <= i < |p| ensures p[i].msg.ProctorEvent? && p[i].sender in st.rooms {
      assert p[i] == xs[i];
    }
  }

  /** The last arrival of a run of events from connected sockets, handled by the event handler. */
  lemma EventsReplayStep(st: ServerState, xs: seq<Arrival>)
    requires WellFormed(st) && xs != [] && EventsFromConnected(st, xs)
    requires Replay(st, xs[..|xs| - 1]).rooms == st.rooms
    ensures var x := xs[|xs| - 1];
      Replay(st, xs) == HandleEvent(Replay(st, xs[..|xs| - 1]), x.msg.data, x.now, x.storeFails)
  {
    ConnectedPrefix(st, xs);
  }

  /**
   * Over a run of `proctor-event` messages from connected sockets, no
   * membership changes and every socket receives, in arrival order, exactly
   * the events for the rooms it is in and no other.
   */
  lemma {:induction false} EventsReplayInboxes(st: ServerState, xs: seq<Arrival>)
    requires WellFormed(st)
    requires EventsFromConnected(st, xs)
    ensures Replay(st, xs).rooms == st.rooms
    ensures Replay(st, xs).inboxes.Keys == st.inboxes.Keys
    ensures forall s :: s in st.inboxes ==> Replay(st, xs).inboxes[s] == st.inboxes[s] + EventsFor(st.rooms[s], xs)
    decreases |xs|
  {
    if xs != [] {
      var p := xs[..|xs| - 1];
      var x := xs[|xs| - 1];
      var before := Replay(st, p);
      ConnectedPrefix(st, xs);
      EventsReplayInboxes(st, p);
      assert Replay(st, xs) == HandleEvent(before, x.msg.data, x.now, x.storeFails) by {
        EventsReplayStep(st, xs);
      }
      forall s | s in st.inboxes
        ensures Replay(st, xs).inboxes[s] == st.inboxes[s] + EventsFor(st.rooms[s], xs)
      {
        HandleEventInbox(before, x.msg.data, x.now, x.storeFails, s);
      }
    }
  }

  /**
   * Over a run of `proctor-event` messages from connected sockets, the store
   * grows by one row per successfully saved event, in arrival order,
   * duplicates included.
   */
  lemma {:induction false} EventsReplayStore(st: ServerState, xs: seq<Arrival>)
    requires WellFormed(st)
    requires EventsFromConnected(st, xs)
    ensures Replay(st, xs).store == st.store + Saved(xs)
    decreases |xs|
  {
    if xs != [] {
      var p := xs[..|xs| - 1];
      var x := xs[|xs| - 1];
      var added := if RecordFor(x.msg.data, x.now).Success? && !x.storeFails then [RecordFor(x.msg.data, x.now).value] else [];
      ConnectedPrefix(st, xs);
      assert Replay(st, p).rooms == st.rooms by {
        EventsReplayInboxes(st, p);
      }
      assert Replay(st, xs).store == Replay(st, p).store + added by {
        EventsReplayStep(st, xs);
      }
      EventsReplayStore(st, p);
      assert Saved(xs) == Saved(p) + added;
    }
  }

  // ---------------------------------------------------------------------
  // The server object

  /** The server's shared state, changed only through its socket handlers. */
  class Server {
    var rooms: Rooms
    var inboxes: Inboxes
    var store: seq<LogRecord>
    var saveErrors: seq<SaveError>

    function State(): ServerState
      reads this
    {
      ServerState(rooms, inboxes, store, saveErrors)
    }

    ghost predicate Valid()
      reads this
    {
      WellFormed(State())
    }

    constructor ()
      ensures Valid()
      ensures rooms == map[] && inboxes == map[] && store == [] && saveErrors == []
    {
      rooms := map[];
      inboxes := map[];
      store := [];
      saveErrors := [];
    }

    /** The `connection` handler for a socket with a fresh id. */
    method OnConnection(s: SocketId)
      requires Valid() && s !in rooms
      modifies this`rooms, this`inboxes
      ensures Valid()
      ensures State() == Connect(old(State()), s)
      ensures rooms == old(rooms)[s := {Some(s)}] && inboxes == old(inboxes)[s := []]
    {
      rooms := rooms[s := {Some(s)}];
      inboxes := inboxes[s := []];
    }

    /** The `join-session` handler of socket `s`. */
    method OnJoinSession(s: SocketId, room: Room)
      requires Valid() && s in rooms
      modifies this`rooms
      ensures Valid()
      ensures State() == Deliver(old(State()), s, JoinSession(room), 0, false)
      ensures rooms == Join(old(rooms), s, room)
    {
      rooms := rooms[s := rooms[s] + {room}];
    }

    /** The `proctor-event` handler of socket `sender`, receiving `data` at `now`. */
    method OnProctorEvent(sender: SocketId, data: Message, now: int, storeFails: bool)
      requires Valid() && sender in rooms
      modifies this`inboxes, this`store, this`saveErrors
      ensures Valid()
      ensures State() == HandleEvent(old(State()), data, now, storeFails)
    {
      inboxes := Broadcast(rooms, inboxes, data.sessionId, data);
      var doc := BuildDoc(data, now);
      var saved := Validate(doc, now);
      if saved.Success? && !storeFails {
        store := store + [saved.value];
      } else if saved.Success? {
        saveErrors := saveErrors + [StoreUnavailable];
      } else {
        saveErrors := saveErrors + [Invalid(saved.error)];
      }
    }

    /** A message arriving on connected socket `s`, routed to its handler. */
    method OnMessage(s: SocketId, m: ClientMessage, now: int, storeFails: bool)
      requires Valid() && s in rooms
      modifies this`rooms, this`inboxes, this`store, this`saveErrors
      ensures Valid()
      ensures State() == Deliver(old(State()), s, m, now, storeFails)
    {
      match m
      case JoinSession(room) => OnJoinSession(s, room);
      case ProctorEvent(data) => OnProctorEvent(s, data, now, storeFails);
    }
  }
}
