/** The earlier hub of `server.js`: room membership only, no registry, and a
    `cellUpdate` handler that forwards the payload object unchanged to the
    members of the room it names outside the sender's own room. */
module LegacyRelay {
  import opened Wrappers
  import opened Rooms

  /** A room key is whatever the client passed; `None` is `undefined`, which
      the transport uses as a room key like any other. */
  type Room = Option<string>

  /** The `cellUpdate` payload as sent. The relay only reads `spreadsheetId`;
      the older client leaves that field out. */
  datatype Payload = Payload(spreadsheetId: Room, cellId: string, value: string)

  /** The only event this hub emits: `cellUpdated` carrying the payload. */
  datatype RelayEvent = CellUpdated(data: Payload)

  /** `cellUpdate`: `data` goes, unchanged, to every member of room
      `data.spreadsheetId` outside the sender's own room (the room keyed by
      its id), whether or not the sender is in the payload's room. */
  function Forward(rooms: map<Room, set<SocketId>>, sender: SocketId, data: Payload): (out: set<Delivery<RelayEvent>>)
    ensures forall d :: d in out <==>
      d.to in Members(rooms, data.spreadsheetId) && d.to !in Members(rooms, Some(sender)) && d.event == CellUpdated(data)
    ensures forall d :: d in out ==> d.event.data == data
  {
    ToOthers(Members(rooms, data.spreadsheetId), Members(rooms, Some(sender)), CellUpdated(data))
  }

  /** For a live sender, whether it belongs to any further room makes no
      difference to what is forwarded. */
  lemma ForwardIgnoresSenderMembership(rooms: map<Room, set<SocketId>>, sender: SocketId, data: Payload, k: Room)
    requires sender in Members(rooms, Some(sender))
    ensures Forward(Join(rooms, sender, k), sender, data) == Forward(rooms, sender, data)
  {
    var joined := Join(rooms, sender, k);
    assert Members(joined, Some(sender)) == Members(rooms, Some(sender));
    assert Members(joined, data.spreadsheetId) - Members(joined, Some(sender))
        == Members(rooms, data.spreadsheetId) - Members(rooms, Some(sender));
  }

  /** A payload without `spreadsheetId` reaches only connections that joined
      the `undefined` room. */
  lemma MissingRoomReachesOnlyUndefinedRoom(rooms: map<Room, set<SocketId>>, sender: SocketId, cellId: string, value: string)
    ensures forall d :: d in Forward(rooms, sender, Payload(None, cellId, value)) ==> d.to in Members(rooms, None)
  {
  }

  /** The relay as the server process holds it. */
  class Relay {
    var rooms: map<Room, set<SocketId>>

    constructor ()
      ensures rooms == map[]
    {
      rooms := map[];
    }

    /** The transport accepts a connection and puts it in the room named by
        its id; the `connection` handler only logs. */
    method Connect(socket: SocketId)
      modifies this
      ensures Members(rooms, Some(socket)) == Members(old(rooms), Some(socket)) + {socket}
      ensures forall k :: k != Some(socket) ==> Members(rooms, k) == Members(old(rooms), k)
    {
      rooms := Join(rooms, socket, Some(socket));
    }

    /** `joinSpreadsheet(spreadsheetId)`: receives the bare id and only joins
        that room; no identity is stored and nothing is emitted. */
    method JoinSpreadsheet(socket: SocketId, spreadsheetId: Room)
      modifies this
      ensures Members(rooms, spreadsheetId) == Members(old(rooms), spreadsheetId) + {socket}
      ensures forall k :: k != spreadsheetId ==> Members(rooms, k) == Members(old(rooms), k)
    {
      rooms := Join(rooms, socket, spreadsheetId);
    }

    method CellUpdate(sender: SocketId, data: Payload) returns (out: set<Delivery<RelayEvent>>)
      ensures out == Forward(rooms, sender, data)
    {
      out := ToOthers(Members(rooms, data.spreadsheetId), Members(rooms, Some(sender)), CellUpdated(data));
    }

    /** `disconnect` only logs: it emits nothing. The transport takes the
        connection out of every room. */
    method Disconnect(socket: SocketId) returns (out: set<Delivery<RelayEvent>>)
      modifies this
      ensures out == {}
      ensures forall k :: Members(rooms, k) == Members(old(rooms), k) - {socket}
    {
      rooms := LeaveAll(rooms, socket);
      out := {};
    }
  }
}
