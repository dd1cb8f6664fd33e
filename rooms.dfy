/** Room membership as kept by the socket transport: a mapping from a room key
    to the set of connections currently in that room, and the two broadcast
    forms used by both hubs (`io.to(room)` and `socket.to(room)`). Besides the
    rooms the handlers join, the transport puts every connection in a room
    named by its own id when it connects; the hubs model that as a `Join`. */
module Rooms {

  /** An opaque connection identifier (`socket.id`). */
  type SocketId = string

  /** One outbound message: the event `event` sent to connection `to`. */
  datatype Delivery<E> = Delivery(to: SocketId, event: E)

  /** The members of room `k`; a room that does not exist has no members. */
  function Members<K(!new)>(rooms: map<K, set<SocketId>>, k: K): set<SocketId>
  {
    if k in rooms then rooms[k] else {}
  }

  /** `socket.join(k)`: adds the connection to room `k` and to no other room,
      and takes it out of none. */
  function Join<K(!new)>(rooms: map<K, set<SocketId>>, socket: SocketId, k: K): (r: map<K, set<SocketId>>)
    ensures Members(r, k) == Members(rooms, k) + {socket}
    ensures forall k' :: k' != k ==> Members(r, k') == Members(rooms, k')
    ensures forall k' :: Members(rooms, k') <= Members(r, k')
  {
    rooms[k := Members(rooms, k) + {socket}]
  }

  /** What the transport does when a connection closes: the connection leaves
      every room, and a room left without members is dropped. */
  function LeaveAll<K(!new)>(rooms: map<K, set<SocketId>>, socket: SocketId): (r: map<K, set<SocketId>>)
    ensures forall k :: Members(r, k) == Members(rooms, k) - {socket}
    ensures forall k :: k in r ==> r[k] != {}
  {
    map k | k in rooms && rooms[k] - {socket} != {} :: rooms[k] - {socket}
  }

  /** `io.to(room).emit(e)` over the given members: one delivery of `e` to
      every member, the sender included when it is a member. */
  function ToAll<E(==,!new)>(members: set<SocketId>, e: E): (out: set<Delivery<E>>)
    ensures forall d :: d in out <==> d.to in members && d.event == e
    ensures forall m :: m in members ==> Delivery(m, e) in out
  {
    set m | m in members :: Delivery(m, e)
  }

  /** `socket.to(room).emit(e)` over the given members: the broadcast names
      the sender's own room (the room keyed by its id) as the room to leave
      out, so every member of that room, `except`, is skipped. A connected
      sender is in its own room, so it never receives its own broadcast. */
  function ToOthers<E(==,!new)>(members: set<SocketId>, except: set<SocketId>, e: E): (out: set<Delivery<E>>)
    ensures forall d :: d in out <==> d.to in members && d.to !in except && d.event == e
    ensures forall m :: m in members && m !in except ==> Delivery(m, e) in out
  {
    ToAll(members - except, e)
  }

  /** Recipients of a set of deliveries. */
  function Recipients<E(==,!new)>(out: set<Delivery<E>>): set<SocketId>
  {
    set d | d in out :: d.to
  }

  /** `io.to(room)` reaches exactly the room, and `socket.to(room)` exactly
      the room without the members of the sender's own room. */
  lemma RecipientsOfBroadcast<E(!new)>(members: set<SocketId>, except: set<SocketId>, e: E)
    ensures Recipients(ToAll(members, e)) == members
    ensures Recipients(ToOthers(members, except, e)) == members - except
  {
    forall m | m in members ensures m in Recipients(ToAll(members, e)) {
      assert Delivery(m, e) in ToAll(members, e);
    }
    forall m | m in members - except ensures m in Recipients(ToOthers(members, except, e)) {
      assert Delivery(m, e) in ToOthers(members, except, e);
    }
  }

  /** A broadcast of one event reaches each recipient exactly once: no
      connection gets two different deliveries. */
  lemma BroadcastOncePerRecipient<E(!new)>(members: set<SocketId>, except: set<SocketId>, e: E)
    ensures forall d1, d2 :: d1 in ToAll(members, e) && d2 in ToAll(members, e) && d1.to == d2.to ==> d1 == d2
    ensures forall d1, d2 :: d1 in ToOthers(members, except, e) && d2 in ToOthers(members, except, e) && d1.to == d2.to ==> d1 == d2
  {
  }

  /** Joining the same room twice has no further effect. */
  lemma JoinIdempotent<K(!new)>(rooms: map<K, set<SocketId>>, socket: SocketId, k: K)
    ensures Join(Join(rooms, socket, k), socket, k) == Join(rooms, socket, k)
  {
  }

  /** A second leave-all changes nothing. */
  lemma LeaveAllIdempotent<K(!new)>(rooms: map<K, set<SocketId>>, socket: SocketId)
    ensures LeaveAll(LeaveAll(rooms, socket), socket) == LeaveAll(rooms, socket)
  {
    var once := LeaveAll(rooms, socket);
    var twice := LeaveAll(once, socket);
    forall k | k in once ensures once[k] - {socket} == once[k] {
      assert socket !in Members(once, k);
    }
    assert twice.Keys == once.Keys;
  }

  /** Leave-all is the identity on a room map without empty rooms that does
      not contain the connection. */
  lemma LeaveAllNonMember<K(!new)>(rooms: map<K, set<SocketId>>, socket: SocketId)
    requires forall k :: socket !in Members(rooms, k)
    requires forall k :: k in rooms ==> rooms[k] != {}
    ensures LeaveAll(rooms, socket) == rooms
  {
    var r := LeaveAll(rooms, socket);
    forall k | k in rooms ensures k in r && r[k] == rooms[k] {
      assert socket !in Members(rooms, k);
    }
    assert r.Keys == rooms.Keys;
  }
}
