/** The collaboration handlers registered on every connection: `joinRoom` and `leaveRoom`
    change the connection's rooms, and six editor events are re-emitted under a fixed new
    name, with `data` untouched, to every member of the named room. The re-emission goes
    through `io.to(room)`, so a sender that is in the room receives its own event back. */
module App {
  import opened Common
  import opened Transport

  /** The six relayed event kinds. */
  datatype RelayKind = Message | DisplayCode | InputChange | OutputChange | ChangeLanguage | TextChange

  /** The name a client sends the event under. */
  function InboundName(k: RelayKind): string
  {
    match k
    case Message => "message"
    case DisplayCode => "display-code"
    case InputChange => "input-change"
    case OutputChange => "output-change"
    case ChangeLanguage => "change-language"
    case TextChange => "text-change"
  }

  /** The name the event is re-emitted under (spelt as the clients expect it). */
  function OutboundName(k: RelayKind): string
  {
    match k
    case Message => "recieve-message"
    case DisplayCode => "recieve-code"
    case InputChange => "recieve-input"
    case OutputChange => "recieve-output"
    case ChangeLanguage => "recieve-language"
    case TextChange => "recieve-text"
  }

  /** Which relay handler, if any, an inbound event name is registered to. */
  function ParseRelay(name: string): (k: Option<RelayKind>)
    ensures k.Some? ==> InboundName(k.value) == name
    ensures k.None? ==> forall j :: InboundName(j) != name
  {
    if name == "message" then Some(Message)
    else if name == "display-code" then Some(DisplayCode)
    else if name == "input-change" then Some(InputChange)
    else if name == "output-change" then Some(OutputChange)
    else if name == "change-language" then Some(ChangeLanguage)
    else if name == "text-change" then Some(TextChange)
    else None
  }

  /** Every relay name is dispatched to its own handler, and different kinds go out under
      different names, so a client can tell the six streams apart. */
  lemma RenamingIsOneToOne(j: RelayKind, k: RelayKind)
    ensures ParseRelay(InboundName(k)) == Some(k)
    ensures j != k ==> OutboundName(j) != OutboundName(k)
  {
    if j != k {
      assert OutboundName(j)[9..] != OutboundName(k)[9..];
    }
  }

  /** The relay handler for kind `k`: `io.to(room).emit(OutboundName(k), data)`. */
  function Relay(net: Net, k: RelayKind, room: Room, data: Data): Net
  {
    SentToRoom(net, room, Event(OutboundName(k), DataBody(data)))
  }

  /** A relay delivers `data` unchanged, under the renamed event, to every current member
      of `room` (the sender too when it is one) and to nobody else; an empty room receives
      nothing; no membership changes. */
  lemma RelayReachesRoomMembers(net: Net, k: RelayKind, room: Room, data: Data)
    ensures var net' := Relay(net, k, room, data);
      && net'.rooms == net.rooms && net'.connected == net.connected
      && (forall t :: Received(net'.inbox, t) ==
            if t in Members(net.rooms, room) then Received(net.inbox, t) + [Event(OutboundName(k), DataBody(data))]
            else Received(net.inbox, t))
      && (Members(net.rooms, room) == {} ==> net' == net)
  {
    if Members(net.rooms, room) == {} {
      assert Deliver(net.inbox, {}, Event(OutboundName(k), DataBody(data))) == net.inbox;
    }
  }

  /** `joinRoom` puts the socket in the room, changes no other room, and a second join
      changes nothing. */
  lemma JoinRoomIdempotent(net: Net, s: SocketId, room: Room)
    ensures s in Members(Joined(net, s, room).rooms, room)
    ensures forall q :: q != room ==> Members(Joined(net, s, room).rooms, q) == Members(net.rooms, q)
    ensures Joined(Joined(net, s, room), s, room) == Joined(net, s, room)
  {
    AddMemberIdempotent(net.rooms, room, s);
  }

  /** `leaveRoom` takes the socket out of that room only; its other rooms, the other
      members and the inboxes are unchanged, and nobody is told. */
  lemma LeaveRoomOnlyThatRoom(net: Net, s: SocketId, room: Room)
    ensures var net' := Left(net, s, room);
      && Members(net'.rooms, room) == Members(net.rooms, room) - {s}
      && (forall q :: q != room ==> Members(net'.rooms, q) == Members(net.rooms, q))
      && net'.inbox == net.inbox && net'.connected == net.connected
  {
  }

  /** `socket.on("joinRoom", room => socket.join(room))`. */
  method OnJoinRoom(io: Io, socket: SocketId, room: Room)
    requires io.Valid() && socket in io.connected
    modifies io
    ensures io.Valid() && io.State() == Joined(old(io.State()), socket, room)
  {
    io.Join(socket, room);
  }

  /** `socket.on("leaveRoom", room => socket.leave(room))`. */
  method OnLeaveRoom(io: Io, socket: SocketId, room: Room)
    requires io.Valid()
    modifies io
    ensures io.Valid() && io.State() == Left(old(io.State()), socket, room)
  {
    io.Leave(socket, room);
  }

  /** `socket.on(InboundName(k), ({ room, data }) => io.to(room).emit(OutboundName(k), data))`. */
  method OnRelay(io: Io, k: RelayKind, room: Room, data: Data)
    requires io.Valid()
    modifies io
    ensures io.Valid() && io.State() == Relay(old(io.State()), k, room, data)
  {
    io.EmitToRoom(room, Event(OutboundName(k), DataBody(data)));
  }
}
