/** The part of socket.io the handlers rely on: the set of live connections, named rooms
    of connections, and what each connection has been sent. A connection is in the room
    named by its own id from the moment it connects, which is what makes
    `socket.to(socketId)` reach one peer. */
module Transport {
  import opened Common

  /** The body of an outbound event, one constructor per shape the handlers emit. */
  datatype Payload =
    | RoomIdBody(roomId: Room)                      // { roomId }
    | EmailIdBody(emailId: Email)                   // { emailId }
    | OfferBody(from: Option<Email>, offer: Data)   // { from, offer }
    | AnswerBody(ans: Data)                         // { ans }
    | FromBody(from: Option<Email>)                 // { from }
    | DataBody(data: Data)                          // a relayed `data`, as sent

  /** One event as a client receives it: its name and its payload. */
  datatype Event = Event(name: string, payload: Payload)

  /** The server's view of the network: live connections, room membership, and for
      every connection the events delivered to it, oldest first. */
  datatype Net = Net(connected: set<SocketId>, rooms: map<Room, set<SocketId>>, inbox: map<SocketId, seq<Event>>)

  /** The in-memory adapter's invariant: a room that is stored is non-empty (an emptied
      room is deleted) and holds only live connections. */
  predicate WellFormed(net: Net)
  {
    forall r | r in net.rooms :: net.rooms[r] != {} && net.rooms[r] <= net.connected
  }

  /** The members of room `r`; a room that is not stored has none. */
  function Members(rooms: map<Room, set<SocketId>>, r: Room): set<SocketId>
  {
    if r in rooms then rooms[r] else {}
  }

  /** Everything delivered to `s` so far. */
  function Received(inbox: map<SocketId, seq<Event>>, s: SocketId): seq<Event>
  {
    if s in inbox then inbox[s] else []
  }

  /** Rooms after `s` joins `r`. */
  function AddMember(rooms: map<Room, set<SocketId>>, r: Room, s: SocketId): (rooms': map<Room, set<SocketId>>)
    ensures Members(rooms', r) == Members(rooms, r) + {s}
    ensures forall q :: q != r ==> Members(rooms', q) == Members(rooms, q)
    ensures rooms'.Keys == rooms.Keys + {r}
  {
    rooms[r := Members(rooms, r) + {s}]
  }

  /** Joining a room one is already in changes nothing. */
  lemma AddMemberIdempotent(rooms: map<Room, set<SocketId>>, r: Room, s: SocketId)
    ensures AddMember(AddMember(rooms, r, s), r, s) == AddMember(rooms, r, s)
  {
    assert Members(rooms, r) + {s} + {s} == Members(rooms, r) + {s};
  }

  /** Rooms after `s` leaves `r`; a room left empty is deleted. */
  function RemoveMember(rooms: map<Room, set<SocketId>>, r: Room, s: SocketId): (rooms': map<Room, set<SocketId>>)
    ensures Members(rooms', r) == Members(rooms, r) - {s}
    ensures forall q :: q != r ==> Members(rooms', q) == Members(rooms, q)
    ensures rooms'.Keys <= rooms.Keys
    ensures r in rooms' <==> Members(rooms, r) - {s} != {}
  {
    if Members(rooms, r) - {s} == {} then rooms - {r} else rooms[r := rooms[r] - {s}]
  }

  /** Rooms after `s` leaves every room it is in; rooms left empty are deleted. */
  function RemoveEverywhere(rooms: map<Room, set<SocketId>>, s: SocketId): (rooms': map<Room, set<SocketId>>)
    ensures forall q :: Members(rooms', q) == Members(rooms, q) - {s}
    ensures forall q | q in rooms' :: rooms'[q] != {}
  {
    map q | q in rooms && rooms[q] - {s} != {} :: rooms[q] - {s}
  }

  /** Inboxes after `e` is delivered to every connection in `to` and to no other. */
  function Deliver(inbox: map<SocketId, seq<Event>>, to: set<SocketId>, e: Event): (inbox': map<SocketId, seq<Event>>)
    ensures forall t :: Received(inbox', t) == if t in to then Received(inbox, t) + [e] else Received(inbox, t)
  {
    map t | t in inbox.Keys + to :: if t in to then Received(inbox, t) + [e] else inbox[t]
  }

  /** A new connection: live, and a member of the room named by its own id. */
  function Opened(net: Net, s: SocketId): (net': Net)
    ensures WellFormed(net) ==> WellFormed(net')
    ensures net'.connected == net.connected + {s} && net'.inbox == net.inbox
    ensures Members(net'.rooms, s) == Members(net.rooms, s) + {s}
    ensures forall q :: q != s ==> Members(net'.rooms, q) == Members(net.rooms, q)
  {
    Net(net.connected + {s}, AddMember(net.rooms, s, s), net.inbox)
  }

  /** A connection closes: it leaves every room, then is no longer live. */
  function Closed(net: Net, s: SocketId): (net': Net)
    ensures WellFormed(net) ==> WellFormed(net')
    ensures forall q :: s !in Members(net'.rooms, q)
  {
    Net(net.connected - {s}, RemoveEverywhere(net.rooms, s), net.inbox)
  }

  /** `socket.join(r)`. */
  function Joined(net: Net, s: SocketId, r: Room): (net': Net)
    ensures WellFormed(net) && s in net.connected ==> WellFormed(net')
  {
    net.(rooms := AddMember(net.rooms, r, s))
  }

  /** `socket.leave(r)`. */
  function Left(net: Net, s: SocketId, r: Room): (net': Net)
    ensures WellFormed(net) ==> WellFormed(net')
  {
    net.(rooms := RemoveMember(net.rooms, r, s))
  }

  /** `socket.emit(e)`: the event goes to the emitting connection only. */
  function SentToSelf(net: Net, s: SocketId, e: Event): (net': Net)
  {
    net.(inbox := Deliver(net.inbox, {s}, e))
  }

  /** Who `socket.to(r)` and `socket.broadcast.to(r)` reach: the members of `r` that are
      not in the room named by the emitting connection's id. That room holds the emitter
      itself unless it has left it, and any connection that joined it by name. */
  function ExceptSender(rooms: map<Room, set<SocketId>>, s: SocketId, r: Room): (to: set<SocketId>)
    ensures to <= Members(rooms, r)
    ensures s in Members(rooms, s) ==> s !in to
  {
    Members(rooms, r) - Members(rooms, s)
  }

  /** `socket.to(r).emit(e)` and `socket.broadcast.to(r).emit(e)`. */
  function SentExcept(net: Net, s: SocketId, r: Room, e: Event): (net': Net)
  {
    net.(inbox := Deliver(net.inbox, ExceptSender(net.rooms, s, r), e))
  }

  /** `io.to(r).emit(e)`: every member of `r`, the emitter included when it is one. */
  function SentToRoom(net: Net, r: Room, e: Event): (net': Net)
  {
    net.(inbox := Deliver(net.inbox, Members(net.rooms, r), e))
  }

  /** `net'` differs from `net` only by events appended to inboxes of connections that
      were live in `net`: nothing delivered is ever taken back, and nothing reaches a
      closed connection. */
  ghost predicate DeliversToLive(net: Net, net': Net)
  {
    forall t ::
      && Received(net.inbox, t) <= Received(net'.inbox, t)
      && (Received(net'.inbox, t) != Received(net.inbox, t) ==> t in net.connected)
  }

  /** A delivery to live connections only appends, and only for live connections. */
  lemma DeliverToLive(net: Net, to: set<SocketId>, e: Event)
    requires to <= net.connected
    ensures DeliversToLive(net, net.(inbox := Deliver(net.inbox, to, e)))
  {
    var net' := net.(inbox := Deliver(net.inbox, to, e));
    forall t ensures Received(net.inbox, t) <= Received(net'.inbox, t)
      && (Received(net'.inbox, t) != Received(net.inbox, t) ==> t in net.connected)
    {
    }
  }

  /** Every emission of a valid network reaches live connections only, and an emission
      to an empty recipient set changes nothing. */
  lemma EmissionsReachLiveOnly(net: Net, s: SocketId, r: Room, e: Event)
    requires WellFormed(net) && s in net.connected
    ensures DeliversToLive(net, SentToSelf(net, s, e))
    ensures DeliversToLive(net, SentExcept(net, s, r, e))
    ensures DeliversToLive(net, SentToRoom(net, r, e))
    ensures Members(net.rooms, r) == {} ==> SentToRoom(net, r, e) == net
  {
    assert Members(net.rooms, r) <= net.connected;
    DeliverToLive(net, {s}, e);
    DeliverToLive(net, ExceptSender(net.rooms, s, r), e);
    DeliverToLive(net, Members(net.rooms, r), e);
    if Members(net.rooms, r) == {} {
      assert Deliver(net.inbox, {}, e) == net.inbox;
    }
  }

  /** The connection object of socket.io, whose methods change the network in place. */
  class Io {
    var connected: set<SocketId>
    var rooms: map<Room, set<SocketId>>
    var inbox: map<SocketId, seq<Event>>

    function State(): Net
      reads this
    {
      Net(connected, rooms, inbox)
    }

    ghost predicate Valid()
      reads this
    {
      WellFormed(State())
    }

    constructor ()
      ensures Valid() && State() == Net({}, map[], map[])
    {
      connected, rooms, inbox := {}, map[], map[];
    }

    method Connect(s: SocketId)
      requires Valid()
      modifies this
      ensures Valid() && State() == Opened(old(State()), s)
    {
      connected := connected + {s};
      rooms := AddMember(rooms, s, s);
    }

    method Close(s: SocketId)
      requires Valid()
      modifies this
      ensures Valid() && State() == Closed(old(State()), s)
    {
      rooms := RemoveEverywhere(rooms, s);
      connected := connected - {s};
    }

    method Join(s: SocketId, r: Room)
      requires Valid() && s in connected
      modifies this
      ensures Valid() && State() == Joined(old(State()), s, r)
    {
      rooms := AddMember(rooms, r, s);
    }

    method Leave(s: SocketId, r: Room)
      requires Valid()
      modifies this
      ensures Valid() && State() == Left(old(State()), s, r)
    {
      rooms := RemoveMember(rooms, r, s);
    }

    method EmitToSelf(s: SocketId, e: Event)
      requires Valid()
      modifies this
      ensures Valid() && State() == SentToSelf(old(State()), s, e)
    {
      inbox := Deliver(inbox, {s}, e);
    }

    method EmitExcept(s: SocketId, r: Room, e: Event)
      requires Valid()
      modifies this
      ensures Valid() && State() == SentExcept(old(State()), s, r, e)
    {
      inbox := Deliver(inbox, ExceptSender(rooms, s, r), e);
    }

    method EmitToRoom(r: Room, e: Event)
      requires Valid()
      modifies this
      ensures Valid() && State() == SentToRoom(old(State()), r, e)
    {
      inbox := Deliver(inbox, Members(rooms, r), e);
    }
  }
}
