/** The presence/room hub of `server/server.js`: the `activeUsers` registry
    (connection to identity and spreadsheet) beside the transport's room
    membership, the transport's step on a new connection, and the four socket
    handlers that update them and emit events.

    Each handler runs to completion before the next event is taken, so the hub
    is a state machine: the functions `OnConnect`, `OnJoin`, `OnUpdateCursor`,
    `OnCellUpdate` and `OnDisconnect` give the next state and the deliveries
    of one event, and the class `Server` performs the same handlers on its
    mutable fields. */
module Hub {
  import opened Wrappers
  import opened Rooms
  import opened Protocol

  /** A registry entry: `{ userId, username, spreadsheetId }`. */
  datatype User = User(userId: UserId, username: Option<Name>, spreadsheetId: SheetId)

  /** The registry and the room membership together. Room keys are strings:
      a sheet id, or the id of a connection for the room the transport puts
      each connection in. */
  datatype State = State(activeUsers: map<SocketId, User>, rooms: map<SheetId, set<SocketId>>)

  /** The outcome of handling one event. */
  datatype Step = Step(next: State, out: set<Delivery<OutEvent>>)

  /** Process start: no connection, no registry entry, no room. */
  const Initial := State(map[], map[])

  /** A live connection is in the room named by its own id. */
  ghost predicate Connected(s: State, socket: SocketId)
  {
    socket in Members(s.rooms, socket)
  }

  /** The invariant the transport and the handlers keep: every room member
      and every registered connection is a live connection, and no room is
      kept without members. A live connection need not be registered. */
  ghost predicate Consistent(s: State)
  {
    && (forall k, m :: m in Members(s.rooms, k) ==> Connected(s, m))
    && (forall c :: c in s.activeUsers ==> Connected(s, c))
    && (forall k :: k in s.rooms ==> s.rooms[k] != {})
  }

  /** A new connection: the transport puts it in the room named by its id;
      the `connection` handler only logs, so nothing is stored or emitted. */
  function OnConnect(s: State, socket: SocketId): (r: Step)
    ensures r.next.activeUsers == s.activeUsers
    ensures Members(r.next.rooms, socket) == Members(s.rooms, socket) + {socket}
    ensures forall k :: k != socket ==> Members(r.next.rooms, k) == Members(s.rooms, k)
    ensures r.out == {}
  {
    Step(s.(rooms := Join(s.rooms, socket, socket)), {})
  }

  /** `joinSpreadsheet`: join the named room (leaving no other), overwrite this
      connection's registry entry, then announce `userJoined` to the whole
      room, the joining connection included. */
  function OnJoin(s: State, socket: SocketId, ev: JoinRequest): (r: Step)
    ensures r.next.activeUsers.Keys == s.activeUsers.Keys + {socket}
    ensures r.next.activeUsers[socket] == User(ev.userId, ev.username, ev.spreadsheetId)
    ensures forall c :: c in s.activeUsers && c != socket ==> r.next.activeUsers[c] == s.activeUsers[c]
    ensures Members(r.next.rooms, ev.spreadsheetId) == Members(s.rooms, ev.spreadsheetId) + {socket}
    ensures forall k :: k != ev.spreadsheetId ==> Members(r.next.rooms, k) == Members(s.rooms, k)
    ensures forall d :: d in r.out <==>
      d.to in Members(r.next.rooms, ev.spreadsheetId) && d.event == UserJoined(ev.userId, ev.username)
    ensures Delivery(socket, UserJoined(ev.userId, ev.username)) in r.out
  {
    var rooms := Join(s.rooms, socket, ev.spreadsheetId);
    var users := s.activeUsers[socket := User(ev.userId, ev.username, ev.spreadsheetId)];
    Step(State(users, rooms), ToAll(Members(rooms, ev.spreadsheetId), UserJoined(ev.userId, ev.username)))
  }

  /** `updateCursor`: a registered sender's position goes to every member of
      the room named in the event outside the sender's own room, under the
      registered identity; an unregistered sender's event is dropped.
      Nothing is stored. */
  function OnUpdateCursor(s: State, socket: SocketId, ev: CursorRequest): (r: Step)
    ensures r.next == s
    ensures socket !in s.activeUsers ==> r.out == {}
    ensures socket in s.activeUsers ==> forall d :: d in r.out <==>
      && d.to in Members(s.rooms, ev.spreadsheetId)
      && d.to !in Members(s.rooms, socket)
      && d.event == CursorMoved(s.activeUsers[socket].userId, s.activeUsers[socket].username, ev.position)
  {
    if socket in s.activeUsers then
      var user := s.activeUsers[socket];
      Step(s, ToOthers(Members(s.rooms, ev.spreadsheetId), Members(s.rooms, socket),
                       CursorMoved(user.userId, user.username, ev.position)))
    else
      Step(s, {})
  }

  /** `cellUpdate`: a registered sender's edit goes to every member of the
      room named in the event (not necessarily the room it registered with)
      outside the sender's own room, attributed to the registered identity; an unregistered sender's
      edit is dropped. Nothing is stored. */
  function OnCellUpdate(s: State, socket: SocketId, ev: CellEdit): (r: Step)
    ensures r.next == s
    ensures socket !in s.activeUsers ==> r.out == {}
    ensures socket in s.activeUsers ==> forall d :: d in r.out <==>
      && d.to in Members(s.rooms, ev.spreadsheetId)
      && d.to !in Members(s.rooms, socket)
      && d.event == CellUpdated(s.activeUsers[socket].userId, s.activeUsers[socket].username, ev.cellId, ev.value)
  {
    if socket in s.activeUsers then
      var user := s.activeUsers[socket];
      Step(s, ToOthers(Members(s.rooms, ev.spreadsheetId), Members(s.rooms, socket),
                       CellUpdated(user.userId, user.username, ev.cellId, ev.value)))
    else
      Step(s, {})
  }

  /** `disconnect`. The transport has already taken the connection out of
      every room when the handler runs. A registered connection's departure is
      announced with its stored identity to the room it registered with, and
      then exactly its registry entry is deleted; an unregistered connection
      produces nothing. */
  function OnDisconnect(s: State, socket: SocketId): (r: Step)
    ensures r.next.activeUsers.Keys == s.activeUsers.Keys - {socket}
    ensures forall c :: c in r.next.activeUsers ==> r.next.activeUsers[c] == s.activeUsers[c]
    ensures forall k :: Members(r.next.rooms, k) == Members(s.rooms, k) - {socket}
    ensures socket !in s.activeUsers ==> r.out == {}
    ensures socket in s.activeUsers ==> forall d :: d in r.out <==>
      && d.to in Members(s.rooms, s.activeUsers[socket].spreadsheetId)
      && d.to != socket
      && d.event == UserLeft(s.activeUsers[socket].userId, s.activeUsers[socket].username)
  {
    var rooms := LeaveAll(s.rooms, socket);
    if socket in s.activeUsers then
      var user := s.activeUsers[socket];
      Step(State(s.activeUsers - {socket}, rooms),
           ToAll(Members(rooms, user.spreadsheetId), UserLeft(user.userId, user.username)))
    else
      Step(State(s.activeUsers, rooms), {})
  }

  lemma InitialConsistent()
    ensures Consistent(Initial)
  {
  }

  lemma ConnectKeepsConsistent(s: State, socket: SocketId)
    requires Consistent(s)
    ensures Consistent(OnConnect(s, socket).next)
  {
    var c := OnConnect(s, socket).next;
    forall k, m | m in Members(c.rooms, k) ensures Connected(c, m) {
      if m != socket {
        assert m in Members(s.rooms, k) && Connected(s, m);
      }
    }
    forall u | u in c.activeUsers ensures Connected(c, u) {
      assert Connected(s, u);
    }
  }

  /** A join arrives on a live connection, and keeps the invariant. */
  lemma JoinKeepsConsistent(s: State, socket: SocketId, ev: JoinRequest)
    requires Consistent(s) && Connected(s, socket)
    ensures Consistent(OnJoin(s, socket, ev).next)
  {
    var j := OnJoin(s, socket, ev).next;
    forall k, m | m in Members(j.rooms, k) ensures Connected(j, m) {
      if m != socket {
        assert m in Members(s.rooms, k) && Connected(s, m);
      }
    }
    forall u | u in j.activeUsers ensures Connected(j, u) {
      assert Connected(s, u);
    }
  }

  lemma DisconnectKeepsConsistent(s: State, socket: SocketId)
    requires Consistent(s)
    ensures Consistent(OnDisconnect(s, socket).next)
  {
    var d := OnDisconnect(s, socket).next;
    forall k, m | m in Members(d.rooms, k) ensures Connected(d, m) {
      assert m in Members(s.rooms, k) && Connected(s, m);
    }
    forall u | u in d.activeUsers ensures Connected(d, u) {
      assert Connected(s, u);
    }
  }

  /** In a consistent state the disconnect of a connection the transport does
      not know changes nothing and announces nothing. */
  lemma UnknownDisconnectIsNoOp(s: State, socket: SocketId)
    requires Consistent(s)
    requires !Connected(s, socket)
    ensures OnDisconnect(s, socket) == Step(s, {})
  {
    LeaveAllNonMember(s.rooms, socket);
  }

  /** A join is announced to the room as it is after the join: its earlier
      members and the joiner. */
  lemma JoinRecipients(s: State, socket: SocketId, ev: JoinRequest)
    ensures Recipients(OnJoin(s, socket, ev).out) == Members(s.rooms, ev.spreadsheetId) + {socket}
  {
    var rooms := OnJoin(s, socket, ev).next.rooms;
    RecipientsOfBroadcast(Members(rooms, ev.spreadsheetId), {}, UserJoined(ev.userId, ev.username));
  }

  /** A registered connection's cursor reaches exactly the members of the
      room named in the event that are not in the sender's own room. */
  lemma CursorRecipients(s: State, socket: SocketId, ev: CursorRequest)
    requires socket in s.activeUsers
    ensures Recipients(OnUpdateCursor(s, socket, ev).out) == Members(s.rooms, ev.spreadsheetId) - Members(s.rooms, socket)
  {
    var user := s.activeUsers[socket];
    RecipientsOfBroadcast(Members(s.rooms, ev.spreadsheetId), Members(s.rooms, socket),
                          CursorMoved(user.userId, user.username, ev.position));
  }

  /** A registered connection's edit reaches exactly the members of the room
      named in the event that are not in the sender's own room. */
  lemma EditRecipients(s: State, socket: SocketId, ev: CellEdit)
    requires socket in s.activeUsers
    ensures Recipients(OnCellUpdate(s, socket, ev).out) == Members(s.rooms, ev.spreadsheetId) - Members(s.rooms, socket)
  {
    var user := s.activeUsers[socket];
    RecipientsOfBroadcast(Members(s.rooms, ev.spreadsheetId), Members(s.rooms, socket),
                          CellUpdated(user.userId, user.username, ev.cellId, ev.value));
  }

  /** A registered connection's departure reaches exactly the other members
      of the room it registered with. */
  lemma DepartureRecipients(s: State, socket: SocketId)
    requires socket in s.activeUsers
    ensures Recipients(OnDisconnect(s, socket).out) == Members(s.rooms, s.activeUsers[socket].spreadsheetId) - {socket}
  {
    var user := s.activeUsers[socket];
    var rooms := OnDisconnect(s, socket).next.rooms;
    RecipientsOfBroadcast(Members(rooms, user.spreadsheetId), {}, UserLeft(user.userId, user.username));
  }

  /** A live connection never receives its own cursor move or edit, and
      neither does any connection that joined the room named by its id. */
  lemma NoEchoToOwnRoom(s: State, socket: SocketId, cursor: CursorRequest, edit: CellEdit)
    requires Connected(s, socket)
    ensures forall d :: d in OnUpdateCursor(s, socket, cursor).out ==> d.to != socket
    ensures forall d, m :: d in OnUpdateCursor(s, socket, cursor).out && m in Members(s.rooms, socket) ==> d.to != m
    ensures forall d :: d in OnCellUpdate(s, socket, edit).out ==> d.to != socket
    ensures forall d, m :: d in OnCellUpdate(s, socket, edit).out && m in Members(s.rooms, socket) ==> d.to != m
  {
  }

  /** A second disconnect of the same connection has no further effect. */
  lemma DisconnectIdempotent(s: State, socket: SocketId)
    ensures OnDisconnect(OnDisconnect(s, socket).next, socket)
         == Step(OnDisconnect(s, socket).next, {})
  {
    LeaveAllIdempotent(s.rooms, socket);
  }

  /** After a join and then a disconnect on the same connection, neither the
      registry nor any room holds that connection. */
  lemma JoinThenDisconnectForgets(s: State, socket: SocketId, ev: JoinRequest)
    ensures socket !in OnDisconnect(OnJoin(s, socket, ev).next, socket).next.activeUsers
    ensures forall k :: socket !in Members(OnDisconnect(OnJoin(s, socket, ev).next, socket).next.rooms, k)
  {
  }

  /** Re-joining does not leave the earlier room: a connection that joins
      `first` and then `second` is a member of both, while the registry only
      remembers `second`. */
  lemma RejoinKeepsEarlierRoom(s: State, socket: SocketId, first: JoinRequest, second: JoinRequest)
    ensures socket in Members(OnJoin(OnJoin(s, socket, first).next, socket, second).next.rooms, first.spreadsheetId)
    ensures socket in Members(OnJoin(OnJoin(s, socket, first).next, socket, second).next.rooms, second.spreadsheetId)
    ensures OnJoin(OnJoin(s, socket, first).next, socket, second).next.activeUsers[socket].spreadsheetId
         == second.spreadsheetId
  {
  }

  /** Consequence of the above: after joining `first`, re-joining `second`
      and disconnecting, a member of the first room that is not in the second
      hears nothing about the departure. */
  lemma RejoinedDepartureMissesEarlierRoom(s: State, socket: SocketId, first: JoinRequest, second: JoinRequest, peer: SocketId)
    requires peer != socket
    requires peer in Members(s.rooms, first.spreadsheetId)
    requires peer !in Members(s.rooms, second.spreadsheetId)
    requires first.spreadsheetId != second.spreadsheetId
    ensures var after := OnJoin(OnJoin(s, socket, first).next, socket, second).next;
            && peer in Members(after.rooms, first.spreadsheetId)
            && forall d :: d in OnDisconnect(after, socket).out ==> d.to != peer
  {
    var mid := OnJoin(s, socket, first).next;
    var after := OnJoin(mid, socket, second).next;
    assert peer !in Members(mid.rooms, second.spreadsheetId);
    assert peer !in Members(after.rooms, second.spreadsheetId);
  }

  /** Connections `x` and `y` connect, then join "S1" as "u1" and "u2". */
  function TwoInS1(x: SocketId, y: SocketId): State
  {
    var s0 := OnConnect(OnConnect(Initial, x).next, y).next;
    var s1 := OnJoin(s0, x, JoinRequest("S1", "u1", None)).next;
    OnJoin(s1, y, JoinRequest("S1", "u2", None)).next
  }

  /** When the first edits cell "0-0" of "S1", only the second hears of it,
      attributed to "u1". */
  lemma ScenarioEditReachesPeerOnly(x: SocketId, y: SocketId)
    requires x != y && x != "S1" && y != "S1"
    ensures OnCellUpdate(TwoInS1(x, y), x, CellEdit("S1", "0-0", "hello")).out
              == {Delivery(y, CellUpdated("u1", None, "0-0", "hello"))}
  {
    var s2 := TwoInS1(x, y);
    var out := OnCellUpdate(s2, x, CellEdit("S1", "0-0", "hello")).out;
    assert Members(s2.rooms, "S1") == {x, y};
    assert Members(s2.rooms, x) == {x};
    assert Delivery(y, CellUpdated("u1", None, "0-0", "hello")) in out;
  }

  /** An edit whose `spreadsheetId` is the id of a peer connection reaches
      that peer through the room the transport gave it. */
  lemma ScenarioEditToConnectionRoom(x: SocketId, y: SocketId)
    requires x != y && x != "S1" && y != "S1"
    ensures OnCellUpdate(TwoInS1(x, y), x, CellEdit(y, "0-0", "hi")).out
              == {Delivery(y, CellUpdated("u1", None, "0-0", "hi"))}
  {
    var s2 := TwoInS1(x, y);
    var out := OnCellUpdate(s2, x, CellEdit(y, "0-0", "hi")).out;
    assert y in Members(s2.rooms, y);
    assert Members(s2.rooms, x) == {x};
    assert Delivery(y, CellUpdated("u1", None, "0-0", "hi")) in out;
  }

  /** The converse collision: when the second has also joined the room named
      by the first's id, the first's edits skip it, even in a room both share. */
  lemma ScenarioPeerInSenderRoomMissesEdit(x: SocketId, y: SocketId)
    requires x != y && x != "S1" && y != "S1"
    ensures var s := OnJoin(TwoInS1(x, y), y, JoinRequest(x, "u2", None)).next;
            OnCellUpdate(s, x, CellEdit("S1", "0-0", "v")).out == {}
  {
    var s := OnJoin(TwoInS1(x, y), y, JoinRequest(x, "u2", None)).next;
    assert Members(s.rooms, "S1") == {x, y};
    assert Members(s.rooms, x) == {x, y};
  }

  /** When the first disconnects it is announced once to the second, and not
      to itself. */
  lemma ScenarioDepartureAnnounced(x: SocketId, y: SocketId)
    requires x != y
    ensures OnDisconnect(TwoInS1(x, y), x).out == {Delivery(y, UserLeft("u1", None))}
  {
    var s2 := TwoInS1(x, y);
    assert Members(s2.rooms, "S1") == {x, y};
    assert Delivery(y, UserLeft("u1", None)) in OnDisconnect(s2, x).out;
  }

  /** The hub as the server process holds it: the registry `activeUsers` and
      the transport's room membership, mutated by the socket handlers. */
  class Server {
    var activeUsers: map<SocketId, User>
    var rooms: map<SheetId, set<SocketId>>

    function Snapshot(): State
      reads this
    {
      State(activeUsers, rooms)
    }

    ghost predicate Valid()
      reads this
    {
      Consistent(Snapshot())
    }

    constructor ()
      ensures Snapshot() == Initial && Valid()
    {
      activeUsers := map[];
      rooms := map[];
    }

    /** The transport accepts a connection. */
    method Connect(socket: SocketId)
      requires Valid()
      modifies this
      ensures Valid()
      ensures Snapshot() == OnConnect(old(Snapshot()), socket).next
    {
      ConnectKeepsConsistent(Snapshot(), socket);
      rooms := Join(rooms, socket, socket);
    }

    /** Events arrive on live connections only. */
    method JoinSpreadsheet(socket: SocketId, ev: JoinRequest) returns (out: set<Delivery<OutEvent>>)
      requires Valid() && socket in Members(rooms, socket)
      modifies this
      ensures Valid()
      ensures Step(Snapshot(), out) == OnJoin(old(Snapshot()), socket, ev)
    {
      JoinKeepsConsistent(Snapshot(), socket, ev);
      rooms := Join(rooms, socket, ev.spreadsheetId);
      activeUsers := activeUsers[socket := User(ev.userId, ev.username, ev.spreadsheetId)];
      out := ToAll(Members(rooms, ev.spreadsheetId), UserJoined(ev.userId, ev.username));
    }

    method UpdateCursor(socket: SocketId, ev: CursorRequest) returns (out: set<Delivery<OutEvent>>)
      ensures out == OnUpdateCursor(Snapshot(), socket, ev).out
    {
      out := {};
      if socket in activeUsers {
        var user := activeUsers[socket];
        out := ToOthers(Members(rooms, ev.spreadsheetId), Members(rooms, socket),
                        CursorMoved(user.userId, user.username, ev.position));
      }
    }

    method CellUpdate(socket: SocketId, ev: CellEdit) returns (out: set<Delivery<OutEvent>>)
      ensures out == OnCellUpdate(Snapshot(), socket, ev).out
    {
      out := {};
      if socket in activeUsers {
        var user := activeUsers[socket];
        out := ToOthers(Members(rooms, ev.spreadsheetId), Members(rooms, socket),
                        CellUpdated(user.userId, user.username, ev.cellId, ev.value));
      }
    }

    method Disconnect(socket: SocketId) returns (out: set<Delivery<OutEvent>>)
      requires Valid()
      modifies this
      ensures Valid()
      ensures Step(Snapshot(), out) == OnDisconnect(old(Snapshot()), socket)
    {
      DisconnectKeepsConsistent(Snapshot(), socket);
      rooms := LeaveAll(rooms, socket);
      out := {};
      if socket in activeUsers {
        var user := activeUsers[socket];
        out := ToAll(Members(rooms, user.spreadsheetId), UserLeft(user.userId, user.username));
        activeUsers := activeUsers - {socket};
      }
    }
  }
}
