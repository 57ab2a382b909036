/**
 * Whole-system consequences: the server's handlers composed over runs of
 * messages, and the client's outgoing stream fed to the server.
 */
module Scenarios {
  import opened Wrappers
  import opened Wire
  import opened LogModel
  import opened Relay
  import opened ProctorClient

  /** The server before any connection. */
  function Idle(): (st: ServerState)
    ensures WellFormed(st) && st.rooms == map[] && st.store == []
  {
    ServerState(map[], map[], [], [])
  }

  /** Handling `a` and then `b` is handling `a + b`. */
  lemma {:induction false} ReplayAppend(st: ServerState, a: seq<Arrival>, b: seq<Arrival>)
    requires WellFormed(st)
    ensures Replay(st, a + b) == Replay(Replay(st, a), b)
    decreases |b|
  {
    if b == [] {
      assert a + b == a;
    } else {
      var b0 := b[..|b| - 1];
      assert (a + b)[..|a + b| - 1] == a + b0;
      ReplayAppend(st, a, b0);
    }
  }

  /** Handling one more arrival is delivering it to the state reached so far. */
  lemma ReplaySnoc(st: ServerState, xs: seq<Arrival>, x: Arrival)
    requires WellFormed(st)
    ensures Replay(st, xs + [x]) == Deliver(Replay(st, xs), x.sender, x.msg, x.now, x.storeFails)
  {
    assert (xs + [x])[..|xs|] == xs;
  }

  /** The state after three arrivals, one at a time. */
  lemma ReplayThree(st: ServerState, a: Arrival, b: Arrival, c: Arrival)
    requires WellFormed(st)
    ensures Replay(st, [a, b, c]) ==
      var s1 := Deliver(st, a.sender, a.msg, a.now, a.storeFails);
      var s2 := Deliver(s1, b.sender, b.msg, b.now, b.storeFails);
      Deliver(s2, c.sender, c.msg, c.now, c.storeFails)
  {
    ReplaySnoc(st, [], a);
    assert [] + [a] == [a];
    ReplaySnoc(st, [a], b);
    assert [a] + [b] == [a, b];
    ReplaySnoc(st, [a, b], c);
    assert [a, b] + [c] == [a, b, c];
  }

  /** Two sockets connect and each joins one room: each is in its own-id room and the joined one, with nothing received. */
  lemma TwoJoined(x: SocketId, y: SocketId, rx: Room, ry: Room, now: int)
    requires x != y
    ensures var st1 := Deliver(Connect(Connect(Idle(), x), y), x, JoinSession(rx), now, false);
      var st2 := Deliver(st1, y, JoinSession(ry), now, false);
      && st2.rooms.Keys == {x, y}
      && st2.rooms[x] == {Some(x), rx} && st2.rooms[y] == {Some(y), ry}
      && st2.inboxes[x] == [] && st2.inboxes[y] == [] && st2.store == []
  {
    var st0 := Connect(Connect(Idle(), x), y);
    assert st0.rooms == map[x := {Some(x)}, y := {Some(y)}];
    assert st0.inboxes == map[x := [], y := []];
  }

  /**
   * Two sockets join the same session and the first emits an event for it:
   * both receive it (the sender sees its own event) and one row is stored,
   * holding the receipt time when the payload had no `ts`.
   */
  lemma SameSessionPeerReceives(x: SocketId, y: SocketId, sid: string, m: Message, now: int)
    requires x != y && m.sessionId == Some(sid) && sid != ""
    requires RequiredString(m.kind)
    ensures var st := Replay(Connect(Connect(Idle(), x), y),
                             [Arrival(x, JoinSession(Some(sid)), now, false),
                              Arrival(y, JoinSession(Some(sid)), now, false),
                              Arrival(x, ProctorEvent(m), now, false)]);
      && st.inboxes[x] == [m] && st.inboxes[y] == [m]
      && |st.store| == 1
      && st.store[0].kind == m.kind.value && st.store[0].detail == m.detail && st.store[0].sessionId == sid
      && st.store[0].ts == (if m.ts.Some? then m.ts.value else now)
  {
    var st0 := Connect(Connect(Idle(), x), y);
    var xs := [Arrival(x, JoinSession(Some(sid)), now, false),
               Arrival(y, JoinSession(Some(sid)), now, false),
               Arrival(x, ProctorEvent(m), now, false)];
    ReplayThree(st0, xs[0], xs[1], xs[2]);
    var st1 := Deliver(st0, x, JoinSession(Some(sid)), now, false);
    var st2 := Deliver(st1, y, JoinSession(Some(sid)), now, false);
    TwoJoined(x, y, Some(sid), Some(sid), now);
    HandleEventInbox(st2, m, now, false, x);
    HandleEventInbox(st2, m, now, false, y);
    RecordForPayload(m, now);
  }

  /**
   * A socket that joined only another session receives nothing from an
   * event for the first one (unless that session is named after the socket's
   * own id, the room socket.io puts every socket in).
   */
  lemma OtherSessionReceivesNothing(x: SocketId, y: SocketId, s1: string, s2: string, m: Message, now: int)
    requires x != y && s1 != s2 && s1 != y && m.sessionId == Some(s1)
    ensures var st := Replay(Connect(Connect(Idle(), x), y),
                             [Arrival(x, JoinSession(Some(s1)), now, false),
                              Arrival(y, JoinSession(Some(s2)), now, false),
                              Arrival(x, ProctorEvent(m), now, false)]);
      st.inboxes[y] == [] && st.inboxes[x] == [m]
  {
    var st0 := Connect(Connect(Idle(), x), y);
    var xs := [Arrival(x, JoinSession(Some(s1)), now, false),
               Arrival(y, JoinSession(Some(s2)), now, false),
               Arrival(x, ProctorEvent(m), now, false)];
    ReplayThree(st0, xs[0], xs[1], xs[2]);
    var st1 := Deliver(st0, x, JoinSession(Some(s1)), now, false);
    var st2 := Deliver(st1, y, JoinSession(Some(s2)), now, false);
    TwoJoined(x, y, Some(s1), Some(s2), now);
    HandleEventInbox(st2, m, now, false, x);
    HandleEventInbox(st2, m, now, false, y);
  }

  /** The messages a client sends, all received on socket `c` at `now`. */
  function Sent(c: SocketId, msgs: seq<ClientMessage>, now: int): (xs: seq<Arrival>)
    ensures |xs| == |msgs|
  {
    seq(|msgs|, i requires 0 <= i < |msgs| => Arrival(c, msgs[i], now, false))
  }

  /** The payloads of a client's logged events, tagged with its session id. */
  function Payloads(sid: string, h: seq<EventLog>): (r: seq<Message>)
    ensures |r| == |h|
  {
    seq(|h|, i requires 0 <= i < |h| => Tagged(sid, h[i]))
  }

  /** The row the server stores for one event logged by a client of session `sid`. */
  function Row(sid: string, e: EventLog): LogRecord {
    LogRecord(e.kind, e.detail, e.ts, sid, None)
  }

  function Rows(sid: string, h: seq<EventLog>): (r: seq<LogRecord>)
    ensures |r| == |h|
  {
    seq(|h|, i requires 0 <= i < |h| => Row(sid, h[i]))
  }

  /** Every event of a client's session reaches a socket that joined it. */
  lemma {:induction false} EventsForSession(joined: set<Room>, c: SocketId, sid: string, h: seq<EventLog>, now: int)
    requires Some(sid) in joined
    ensures EventsFor(joined, Sent(c, Outgoing(sid, h), now)) == Payloads(sid, h)
    decreases |h|
  {
    if h != [] {
      var p := h[..|h| - 1];
      var xs := Sent(c, Outgoing(sid, h), now);
      assert xs[..|xs| - 1] == Sent(c, Outgoing(sid, p), now);
      EventsForSession(joined, c, sid, p, now);
      assert Payloads(sid, h) == Payloads(sid, p) + [Tagged(sid, h[|h| - 1])];
    }
  }

  /**
   * When no save fails, every event a client logs is stored once, as a row of
   * its session, provided its session id and kind are non-empty.
   */
  lemma {:induction false} SavedSession(c: SocketId, sid: string, h: seq<EventLog>, now: int)
    requires sid != ""
    requires forall i :: 0 <= i < |h| ==> h[i].kind != ""
    ensures Saved(Sent(c, Outgoing(sid, h), now)) == Rows(sid, h)
    decreases |h|
  {
    if h != [] {
      var p := h[..|h| - 1];
      var e := h[|h| - 1];
      var xs := Sent(c, Outgoing(sid, h), now);
      assert xs[..|xs| - 1] == Sent(c, Outgoing(sid, p), now);
      SavedSession(c, sid, p, now);
      RecordForPayload(Tagged(sid, e), now);
      assert Rows(sid, h) == Rows(sid, p) + [Row(sid, e)];
    }
  }

  lemma ConnectedSender(st: ServerState, c: SocketId, sid: string, h: seq<EventLog>, now: int)
    requires c in st.rooms
    ensures EventsFromConnected(st, Sent(c, Outgoing(sid, h), now))
  {
  }

  /** A client's stream is its join, handled first, then its events. */
  lemma JoinThenEvents(st: ServerState, c: SocketId, sid: string, h: seq<EventLog>, now: int)
    requires WellFormed(st) && c in st.rooms
    ensures Replay(st, Sent(c, [JoinSession(Some(sid))] + Outgoing(sid, h), now)) ==
            Replay(st.(rooms := Join(st.rooms, c, Some(sid))), Sent(c, Outgoing(sid, h), now))
  {
    var join := [Arrival(c, JoinSession(Some(sid)), now, false)];
    var rest := Sent(c, Outgoing(sid, h), now);
    assert Sent(c, [JoinSession(Some(sid))] + Outgoing(sid, h), now) == join + rest;
    ReplayAppend(st, join, rest);
    ReplaySnoc(st, [], join[0]);
    assert [] + [join[0]] == join;
  }

  /**
   * End to end, inboxes: a client on socket `c` sends what its event log
   * emits (the join, then every logged event tagged with the session id).
   * Every socket that had joined the session, and the client itself,
   * receives every event once and in the order logged.
   */
  lemma ClientStreamReachesSession(st: ServerState, c: SocketId, o: SocketId, sid: string,
                                   h: seq<EventLog>, now: int)
    requires WellFormed(st) && c in st.rooms && o in st.rooms && Some(sid) in st.rooms[o]
    ensures var r := Replay(st, Sent(c, [JoinSession(Some(sid))] + Outgoing(sid, h), now));
      && r.inboxes[o] == st.inboxes[o] + Payloads(sid, h)
      && r.inboxes[c] == st.inboxes[c] + Payloads(sid, h)
  {
    JoinThenEvents(st, c, sid, h, now);
    var st1 := st.(rooms := Join(st.rooms, c, Some(sid)));
    JoinIsAdditive(st.rooms, c, Some(sid), Some(sid));
    ConnectedSender(st1, c, sid, h, now);
    EventsReplayInboxes(st1, Sent(c, Outgoing(sid, h), now));
    EventsForSession(st1.rooms[o], c, sid, h, now);
    EventsForSession(st1.rooms[c], c, sid, h, now);
  }

  /**
   * End to end, store: when no save fails, the same stream adds one row per
   * logged event, in the order logged, provided the session id and every
   * kind are non-empty.
   */
  lemma ClientStreamStored(st: ServerState, c: SocketId, sid: string, h: seq<EventLog>, now: int)
    requires WellFormed(st) && c in st.rooms
    requires sid != ""
    requires forall i :: 0 <= i < |h| ==> h[i].kind != ""
    ensures Replay(st, Sent(c, [JoinSession(Some(sid))] + Outgoing(sid, h), now)).store == st.store + Rows(sid, h)
  {
    JoinThenEvents(st, c, sid, h, now);
    var st1 := st.(rooms := Join(st.rooms, c, Some(sid)));
    ConnectedSender(st1, c, sid, h, now);
    EventsReplayStore(st1, Sent(c, Outgoing(sid, h), now));
    SavedSession(c, sid, h, now);
  }
}
