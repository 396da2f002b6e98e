/** The call-signalling handlers: an identity registry of two maps (identity to socket,
    socket to identity) and five handlers that update it or look a peer up in it. The
    registry is written as the code has it: binding an identity to a new socket leaves
    the old socket's reverse entry in place, and unbinding a socket deletes the forward
    entry of its identity whichever socket that entry points at. */
module SocketController {
  import opened Common
  import opened Transport

  const JoinedRoom := "joined-room"
  const UserJoined := "user-joined"
  const IncomingCall := "incoming-call"
  const CallAcceptedName := "call-accepted"
  const CallDisconnected := "call-disconnected"

  /** The two module-level maps. */
  datatype Registry = Registry(emailToSocket: map<Email, SocketId>, socketToEmail: map<SocketId, Email>)

  /** What a handler acts on: the registry and the network. */
  datatype World = World(reg: Registry, net: Net)

  /** `Map.prototype.get`: the stored value, or undefined. */
  function Get<K, V>(m: map<K, V>, k: K): Option<V>
  {
    if k in m then Some(m[k]) else None
  }

  /** `emailToSocketMapping.get(emailId)` followed by `if (socketId)`: the socket a
      signalling event for `emailId` is sent to, if any. */
  function Target(reg: Registry, emailId: Email): Option<SocketId>
  {
    if emailId in reg.emailToSocket && Truthy(reg.emailToSocket[emailId]) then Some(reg.emailToSocket[emailId]) else None
  }

  /** `socketToEmailMapping.get(socket.id)`: the sender's identity as a payload carries it. */
  function SenderEmail(reg: Registry, s: SocketId): Option<Email>
  {
    Get(reg.socketToEmail, s)
  }

  /** The two `set` calls of handleJoinRoom. */
  function Bind(reg: Registry, s: SocketId, emailId: Email): Registry
  {
    Registry(reg.emailToSocket[emailId := s], reg.socketToEmail[s := emailId])
  }

  /** handleJoinRoom: bind both directions, join the room, acknowledge to the joiner and
      announce the identity to the room's other members. */
  function JoinRoom(w: World, s: SocketId, roomId: Room, emailId: Email): World
  {
    var reg := Bind(w.reg, s, emailId);
    var net := Joined(w.net, s, roomId);
    var net := SentToSelf(net, s, Event(JoinedRoom, RoomIdBody(roomId)));
    var net := SentExcept(net, s, roomId, Event(UserJoined, EmailIdBody(emailId)));
    World(reg, net)
  }

  /** One signalling event: when `emailId` resolves, `e` goes to the resolved socket's
      room except the sender; otherwise nothing happens. */
  function Forward(w: World, s: SocketId, emailId: Email, e: Event): World
  {
    match Target(w.reg, emailId)
    case None => w
    case Some(t) => w.(net := SentExcept(w.net, s, t, e))
  }

  /** handleCallUser. */
  function CallUser(w: World, s: SocketId, emailId: Email, offer: Data): World
  {
    Forward(w, s, emailId, Event(IncomingCall, OfferBody(SenderEmail(w.reg, s), offer)))
  }

  /** handleCallAccepted. */
  function CallAccepted(w: World, s: SocketId, emailId: Email, ans: Data): World
  {
    Forward(w, s, emailId, Event(CallAcceptedName, AnswerBody(ans)))
  }

  /** handleCallDisconnect. */
  function CallDisconnect(w: World, s: SocketId, emailId: Email): World
  {
    Forward(w, s, emailId, Event(CallDisconnected, FromBody(SenderEmail(w.reg, s))))
  }

  /** handleUserDisconnect: when the socket's identity is truthy, delete that identity's
      forward entry and the socket's reverse entry. */
  function Unbind(reg: Registry, s: SocketId): Registry
  {
    match Get(reg.socketToEmail, s)
    case Some(e) =>
      if Truthy(e) then Registry(reg.emailToSocket - {e}, reg.socketToEmail - {s}) else reg
    case None => reg
  }

  /** Join binds `emailId` to `s` in both directions and changes no other entry; `s` is
      now in `roomId` and no other membership changes; the joiner gets
      `joined-room {roomId}`, and `user-joined {emailId}` goes to every member of the room
      that is not in the room named by the joiner's id; nobody else gets anything. */
  lemma JoinRoomEffect(w: World, s: SocketId, roomId: Room, emailId: Email)
    requires WellFormed(w.net) && s in w.net.connected
    ensures var w' := JoinRoom(w, s, roomId, emailId);
      && Get(w'.reg.emailToSocket, emailId) == Some(s)
      && Get(w'.reg.socketToEmail, s) == Some(emailId)
      && (forall e :: e != emailId ==> Get(w'.reg.emailToSocket, e) == Get(w.reg.emailToSocket, e))
      && (forall h :: h != s ==> Get(w'.reg.socketToEmail, h) == Get(w.reg.socketToEmail, h))
      && WellFormed(w'.net) && w'.net.connected == w.net.connected
      && Members(w'.net.rooms, roomId) == Members(w.net.rooms, roomId) + {s}
      && (forall q :: q != roomId ==> Members(w'.net.rooms, q) == Members(w.net.rooms, q))
      && (forall t :: Received(w'.net.inbox, t) ==
            Received(w.net.inbox, t)
            + (if t == s then [Event(JoinedRoom, RoomIdBody(roomId))] else [])
            + (if t in Members(w'.net.rooms, roomId) && t !in Members(w'.net.rooms, s)
               then [Event(UserJoined, EmailIdBody(emailId))] else []))
  {
  }

  /** In the usual case, where the joiner is alone in the room named by its own id and
      joins another room, it gets only the acknowledgement and every earlier member of
      the room gets the announcement. */
  lemma JoinRoomAnnouncesToOthers(w: World, s: SocketId, roomId: Room, emailId: Email)
    requires WellFormed(w.net) && s in w.net.connected
    requires Members(w.net.rooms, s) == {s} && roomId != s
    ensures var w' := JoinRoom(w, s, roomId, emailId);
      && Received(w'.net.inbox, s) == Received(w.net.inbox, s) + [Event(JoinedRoom, RoomIdBody(roomId))]
      && (forall t :: t != s ==>
            Received(w'.net.inbox, t) ==
              (if t in Members(w.net.rooms, roomId) then Received(w.net.inbox, t) + [Event(UserJoined, EmailIdBody(emailId))]
               else Received(w.net.inbox, t)))
  {
    JoinRoomEffect(w, s, roomId, emailId);
  }

  /** Joining again as the same identity from the same socket changes no binding. */
  lemma BindIdempotent(reg: Registry, s: SocketId, emailId: Email)
    ensures Bind(Bind(reg, s, emailId), s, emailId) == Bind(reg, s, emailId)
  {
    var reg1 := Bind(reg, s, emailId);
    assert reg1.emailToSocket[emailId := s] == reg1.emailToSocket;
    assert reg1.socketToEmail[s := emailId] == reg1.socketToEmail;
  }

  /** Binding an identity first from `h1` and then from `h2` overwrites only the forward
      entry: the identity resolves to `h2`, while `h1` still maps back to the identity. */
  lemma RebindKeepsStaleReverse(reg: Registry, h1: SocketId, h2: SocketId, emailId: Email)
    requires h1 != h2 && Truthy(h2)
    ensures var reg' := Bind(Bind(reg, h1, emailId), h2, emailId);
      && Target(reg', emailId) == Some(h2)
      && Get(reg'.socketToEmail, h1) == Some(emailId)
      && Get(reg'.socketToEmail, h2) == Some(emailId)
  {
  }

  /** After such a rebind, unbinding the stale socket `h1` deletes the identity's forward
      entry, although it pointed at `h2`, and leaves `h2` mapped back to the identity: the
      identity no longer resolves, while `h2` still names it. */
  lemma StaleUnbindDropsLiveBinding(reg: Registry, h1: SocketId, h2: SocketId, emailId: Email)
    requires h1 != h2 && Truthy(emailId)
    ensures var reg' := Unbind(Bind(Bind(reg, h1, emailId), h2, emailId), h1);
      && emailId !in reg'.emailToSocket && Target(reg', emailId) == None
      && Get(reg'.socketToEmail, h2) == Some(emailId)
      && h1 !in reg'.socketToEmail
  {
  }

  /** A socket that binds `e1` and then `e2` and is unbound keeps the forward entry of
      `e1`: it still names the unbound socket. */
  lemma UnbindLeavesEarlierIdentity(reg: Registry, h: SocketId, e1: Email, e2: Email)
    requires e1 != e2 && Truthy(e2) && Truthy(h)
    ensures var reg' := Unbind(Bind(Bind(reg, h, e1), h, e2), h);
      && Target(reg', e1) == Some(h) && h !in reg'.socketToEmail
  {
  }

  /** What the three signalling handlers share: neither map and no room changes; when the
      target identity does not resolve nothing at all changes; when it resolves to `t`,
      `e` is appended for every member of room `t` that is not in the room named by the
      sender's id, and for nobody else. */
  ghost predicate ForwardsTo(w: World, w': World, s: SocketId, emailId: Email, e: Event)
  {
    && w'.reg == w.reg
    && w'.net.rooms == w.net.rooms
    && w'.net.connected == w.net.connected
    && (Target(w.reg, emailId).None? ==> w' == w)
    && (Target(w.reg, emailId).Some? ==>
          forall u :: Received(w'.net.inbox, u) ==
            if u in Members(w.net.rooms, Target(w.reg, emailId).value) && u !in Members(w.net.rooms, s)
            then Received(w.net.inbox, u) + [e]
            else Received(w.net.inbox, u))
  }

  /** handleCallUser sends `incoming-call {from, offer}`, with `from` the sender's bound
      identity; handleCallAccepted sends `call-accepted {ans}` with the answer as given;
      handleCallDisconnect sends `call-disconnected {from}`. */
  lemma SignallingForwards(w: World, s: SocketId, emailId: Email, offer: Data, ans: Data)
    ensures ForwardsTo(w, CallUser(w, s, emailId, offer), s, emailId,
                       Event(IncomingCall, OfferBody(SenderEmail(w.reg, s), offer)))
    ensures ForwardsTo(w, CallAccepted(w, s, emailId, ans), s, emailId, Event(CallAcceptedName, AnswerBody(ans)))
    ensures ForwardsTo(w, CallDisconnect(w, s, emailId), s, emailId,
                       Event(CallDisconnected, FromBody(SenderEmail(w.reg, s))))
  {
  }

  /** When the resolved socket `t` is the only member of its own room, a forwarded event
      reaches `t` exactly once unless `t` is in the room named by the sender's id, and
      reaches nobody else. So a socket that signals its own identity reaches nobody, and
      neither does a sender whose target has joined the sender's own room by name. */
  lemma ForwardReachesOnlyTarget(w: World, w': World, s: SocketId, emailId: Email, e: Event, t: SocketId)
    requires ForwardsTo(w, w', s, emailId, e)
    requires Target(w.reg, emailId) == Some(t) && Members(w.net.rooms, t) == {t}
    ensures Received(w'.net.inbox, t) ==
      if t in Members(w.net.rooms, s) then Received(w.net.inbox, t) else Received(w.net.inbox, t) + [e]
    ensures forall u :: u != t ==> Received(w'.net.inbox, u) == Received(w.net.inbox, u)
    ensures t == s ==> forall u :: Received(w'.net.inbox, u) == Received(w.net.inbox, u)
  {
  }

  /** A socket that is in no room receives nothing from a signalling event, whatever the
      target identity resolves to. */
  lemma ForwardMissesRoomless(w: World, s: SocketId, emailId: Email, e: Event, u: SocketId)
    requires forall q :: u !in Members(w.net.rooms, q)
    ensures Received(Forward(w, s, emailId, e).net.inbox, u) == Received(w.net.inbox, u)
  {
    if Target(w.reg, emailId).Some? {
      assert u !in Members(w.net.rooms, Target(w.reg, emailId).value);
    }
  }

  /** Disconnecting a socket with no truthy identity changes nothing, and disconnecting
      twice is the same as disconnecting once. */
  lemma UnbindIdempotent(reg: Registry, s: SocketId)
    ensures (s !in reg.socketToEmail || !Truthy(reg.socketToEmail[s])) ==> Unbind(reg, s) == reg
    ensures Unbind(Unbind(reg, s), s) == Unbind(reg, s)
  {
  }

  /** Disconnecting a socket bound to identity `e` removes the socket's reverse entry and
      the forward entry of `e`, whichever socket that entry pointed at; every other entry
      is unchanged. */
  lemma UnbindRemovesBothEntries(reg: Registry, s: SocketId)
    requires s in reg.socketToEmail && Truthy(reg.socketToEmail[s])
    ensures var e := reg.socketToEmail[s];
      var reg' := Unbind(reg, s);
      && s !in reg'.socketToEmail && e !in reg'.emailToSocket
      && (forall e' :: e' != e ==> Get(reg'.emailToSocket, e') == Get(reg.emailToSocket, e'))
      && (forall h :: h != s ==> Get(reg'.socketToEmail, h) == Get(reg.socketToEmail, h))
  {
  }

  /** The module-level maps, updated in place by the handlers. */
  class Signaling {
    var emailToSocketMapping: map<Email, SocketId>
    var socketToEmailMapping: map<SocketId, Email>

    function Reg(): Registry
      reads this
    {
      Registry(emailToSocketMapping, socketToEmailMapping)
    }

    constructor ()
      ensures Reg() == Registry(map[], map[])
    {
      emailToSocketMapping, socketToEmailMapping := map[], map[];
    }

    method HandleJoinRoom(io: Io, socket: SocketId, roomId: Room, emailId: Email)
      requires io.Valid() && socket in io.connected
      modifies this, io
      ensures io.Valid()
      ensures World(Reg(), io.State()) == JoinRoom(old(World(Reg(), io.State())), socket, roomId, emailId)
    {
      emailToSocketMapping := emailToSocketMapping[emailId := socket];
      socketToEmailMapping := socketToEmailMapping[socket := emailId];
      io.Join(socket, roomId);
      io.EmitToSelf(socket, Event(JoinedRoom, RoomIdBody(roomId)));
      io.EmitExcept(socket, roomId, Event(UserJoined, EmailIdBody(emailId)));
    }

    method HandleCallUser(io: Io, socket: SocketId, emailId: Email, offer: Data)
      requires io.Valid()
      modifies io
      ensures io.Valid()
      ensures World(Reg(), io.State()) == CallUser(old(World(Reg(), io.State())), socket, emailId, offer)
    {
      var fromEmail := Get(socketToEmailMapping, socket);
      var socketId := Get(emailToSocketMapping, emailId);
      if socketId.Some? && Truthy(socketId.value) {
        io.EmitExcept(socket, socketId.value, Event(IncomingCall, OfferBody(fromEmail, offer)));
      }
    }

    method HandleCallAccepted(io: Io, socket: SocketId, emailId: Email, ans: Data)
      requires io.Valid()
      modifies io
      ensures io.Valid()
      ensures World(Reg(), io.State()) == CallAccepted(old(World(Reg(), io.State())), socket, emailId, ans)
    {
      var socketId := Get(emailToSocketMapping, emailId);
      if socketId.Some? && Truthy(socketId.value) {
        io.EmitExcept(socket, socketId.value, Event(CallAcceptedName, AnswerBody(ans)));
      }
    }

    method HandleCallDisconnect(io: Io, socket: SocketId, emailId: Email)
      requires io.Valid()
      modifies io
      ensures io.Valid()
      ensures World(Reg(), io.State()) == CallDisconnect(old(World(Reg(), io.State())), socket, emailId)
    {
      var socketId := Get(emailToSocketMapping, emailId);
      var fromEmail := Get(socketToEmailMapping, socket);
      if socketId.Some? && Truthy(socketId.value) {
        io.EmitExcept(socket, socketId.value, Event(CallDisconnected, FromBody(fromEmail)));
      }
    }

    method HandleUserDisconnect(socket: SocketId)
      modifies this
      ensures Reg() == Unbind(old(Reg()), socket)
    {
      var emailId := Get(socketToEmailMapping, socket);
      if emailId.Some? && Truthy(emailId.value) {
        emailToSocketMapping := emailToSocketMapping - {emailId.value};
        socketToEmailMapping := socketToEmailMapping - {socket};
      }
    }
  }
}
