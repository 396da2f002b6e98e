/** Every inbound occurrence on a connection, dispatched to its handler: socket.io's own
    connect and disconnect, the signalling events, and the collaboration events. Both
    handler sets are taken to be registered on the same server, so they share rooms. On a
    disconnect socket.io removes the connection from all its rooms before the `disconnect`
    handler runs. */
module SocketRoutes {
  import opened Common
  import opened Transport
  import opened SocketController
  import opened App

  /** One inbound occurrence, tagged by the event it arrives as. */
  datatype Inbound =
    | Connection                                    // a new connection
    | JoinRoomEvent(roomId: Room, emailId: Email)   // "join-room"
    | CallUserEvent(emailId: Email, offer: Data)    // "call-user"
    | CallAcceptedEvent(emailId: Email, ans: Data)  // "call-accepted"
    | CallDisconnectEvent(emailId: Email)           // "call-disconnect"
    | Disconnect                                    // "disconnect"
    | JoinRoomRequest(room: Room)                   // "joinRoom"
    | LeaveRoomRequest(room: Room)                  // "leaveRoom"
    | RelayEvent(kind: RelayKind, room: Room, data: Data)

  /** socket.io raises a connection only for a new id, and every other event only on a
      live connection. */
  predicate Enabled(w: World, s: SocketId, ev: Inbound)
  {
    if ev.Connection? then s !in w.net.connected else s in w.net.connected
  }

  /** The effect of one inbound occurrence on connection `s`. */
  function Step(w: World, s: SocketId, ev: Inbound): World
  {
    match ev
    case Connection => w.(net := Opened(w.net, s))
    case JoinRoomEvent(roomId, emailId) => JoinRoom(w, s, roomId, emailId)
    case CallUserEvent(emailId, offer) => CallUser(w, s, emailId, offer)
    case CallAcceptedEvent(emailId, ans) => CallAccepted(w, s, emailId, ans)
    case CallDisconnectEvent(emailId) => CallDisconnect(w, s, emailId)
    case Disconnect => World(Unbind(w.reg, s), Closed(w.net, s))
    case JoinRoomRequest(room) => w.(net := Joined(w.net, s, room))
    case LeaveRoomRequest(room) => w.(net := Left(w.net, s, room))
    case RelayEvent(kind, room, data) => w.(net := Relay(w.net, kind, room, data))
  }

  /** What holds between any two events: the adapter's invariant, and no socket whose
      identity is truthy stays in the reverse map after it has closed. The forward map
      has no such property: it can keep pointing at a closed socket. */
  ghost predicate Inv(w: World)
  {
    && WellFormed(w.net)
    && forall h | h in w.reg.socketToEmail && Truthy(w.reg.socketToEmail[h]) :: h in w.net.connected
  }

  lemma DeliversToLiveTrans(a: Net, b: Net, c: Net)
    requires DeliversToLive(a, b) && DeliversToLive(b, c) && b.connected == a.connected
    ensures DeliversToLive(a, c)
  {
    forall t ensures Received(a.inbox, t) <= Received(c.inbox, t) {
      assert Received(a.inbox, t) <= Received(b.inbox, t) <= Received(c.inbox, t);
    }
  }

  /** Each enabled step keeps the invariant, and only appends to the inboxes of
      connections that were live before it. */
  lemma StepKeepsInv(w: World, s: SocketId, ev: Inbound)
    requires Inv(w) && Enabled(w, s, ev)
    ensures Inv(Step(w, s, ev))
    ensures DeliversToLive(w.net, Step(w, s, ev).net)
  {
    match ev
    case JoinRoomEvent(roomId, emailId) =>
      var n1 := Joined(w.net, s, roomId);
      var n2 := SentToSelf(n1, s, Event(JoinedRoom, RoomIdBody(roomId)));
      var n3 := SentExcept(n2, s, roomId, Event(UserJoined, EmailIdBody(emailId)));
      EmissionsReachLiveOnly(n1, s, roomId, Event(JoinedRoom, RoomIdBody(roomId)));
      assert WellFormed(n2) by { assert n2.rooms == n1.rooms && n2.connected == n1.connected; }
      EmissionsReachLiveOnly(n2, s, roomId, Event(UserJoined, EmailIdBody(emailId)));
      DeliversToLiveTrans(n1, n2, n3);
    case CallUserEvent(emailId, offer) =>
      if Target(w.reg, emailId).Some? {
        EmissionsReachLiveOnly(w.net, s, Target(w.reg, emailId).value, Event(IncomingCall, OfferBody(SenderEmail(w.reg, s), offer)));
      }
    case CallAcceptedEvent(emailId, ans) =>
      if Target(w.reg, emailId).Some? {
        EmissionsReachLiveOnly(w.net, s, Target(w.reg, emailId).value, Event(CallAcceptedName, AnswerBody(ans)));
      }
    case CallDisconnectEvent(emailId) =>
      if Target(w.reg, emailId).Some? {
        EmissionsReachLiveOnly(w.net, s, Target(w.reg, emailId).value, Event(CallDisconnected, FromBody(SenderEmail(w.reg, s))));
      }
    case RelayEvent(kind, room, data) =>
      EmissionsReachLiveOnly(w.net, s, room, Event(OutboundName(kind), DataBody(data)));
    case Disconnect =>
      var w' := Step(w, s, ev);
      forall h | h in w'.reg.socketToEmail && Truthy(w'.reg.socketToEmail[h]) ensures h in w'.net.connected {
        assert h != s;
      }
    case _ =>
  }

  /** The state after a sequence of occurrences, each on the connection paired with it. */
  function Run(w: World, trace: seq<(SocketId, Inbound)>): World
    decreases |trace|
  {
    if trace == [] then w else Run(Step(w, trace[0].0, trace[0].1), trace[1..])
  }

  /** Every occurrence of the trace is enabled in the state it is applied to. */
  predicate Admissible(w: World, trace: seq<(SocketId, Inbound)>)
    decreases |trace|
  {
    trace == [] || (Enabled(w, trace[0].0, trace[0].1) && Admissible(Step(w, trace[0].0, trace[0].1), trace[1..]))
  }

  /** Over any admissible run the invariant holds throughout and no delivered event is
      ever withdrawn: every inbox at the end extends the one at the start. */
  lemma {:induction false} RunKeepsInv(w: World, trace: seq<(SocketId, Inbound)>)
    requires Inv(w) && Admissible(w, trace)
    ensures Inv(Run(w, trace))
    ensures forall t :: Received(w.net.inbox, t) <= Received(Run(w, trace).net.inbox, t)
    decreases |trace|
  {
    if trace != [] {
      var w1 := Step(w, trace[0].0, trace[0].1);
      StepKeepsInv(w, trace[0].0, trace[0].1);
      RunKeepsInv(w1, trace[1..]);
      forall t ensures Received(w.net.inbox, t) <= Received(Run(w, trace).net.inbox, t) {
        assert Received(w.net.inbox, t) <= Received(w1.net.inbox, t);
      }
    }
  }

  /** The occurrences that only look the registry up or touch rooms. */
  predicate LeavesRegistry(ev: Inbound)
  {
    !ev.JoinRoomEvent? && !ev.Disconnect?
  }

  /** Only `join-room` and `disconnect` change either map: a run of any other events
      leaves the registry as it was. */
  lemma {:induction false} OtherEventsKeepRegistry(w: World, trace: seq<(SocketId, Inbound)>)
    requires forall i :: 0 <= i < |trace| ==> LeavesRegistry(trace[i].1)
    ensures Run(w, trace).reg == w.reg
    decreases |trace|
  {
    if trace != [] {
      var w1 := Step(w, trace[0].0, trace[0].1);
      assert LeavesRegistry(trace[0].1);
      assert w1.reg == w.reg;
      assert forall i :: 0 <= i < |trace[1..]| ==> LeavesRegistry(trace[1..][i].1) by {
        forall i | 0 <= i < |trace[1..]| ensures LeavesRegistry(trace[1..][i].1) {
          assert trace[1..][i] == trace[i + 1];
        }
      }
      OtherEventsKeepRegistry(w1, trace[1..]);
    }
  }

  /** What `join-room` and `disconnect` do to the registry and to the set of live
      connections, stated apart from the inboxes. */
  lemma RegistrySteps(w: World, s: SocketId, roomId: Room, emailId: Email)
    ensures var w' := Step(w, s, JoinRoomEvent(roomId, emailId));
      w'.reg == Bind(w.reg, s, emailId) && w'.net.connected == w.net.connected
    ensures var w' := Step(w, s, Disconnect);
      w'.reg == Unbind(w.reg, s) && w'.net.connected == w.net.connected - {s}
      && w'.net.inbox == w.net.inbox && forall q :: s !in Members(w'.net.rooms, q)
  {
  }

  /** The consequence of the stale reverse entry. An identity joins from `h1`, then from
      `h2`; when `h1` disconnects, the identity's forward entry is deleted although it
      pointed at `h2`. Afterwards `h2` is live and still maps back to the identity, yet the
      identity does not resolve, so every call to it is dropped (SignallingForwards). */
  lemma StaleDisconnectStrandsLiveSocket(w: World, h1: SocketId, h2: SocketId, r1: Room, r2: Room, emailId: Email,
                                         w1: World, w2: World, w3: World)
    requires h2 in w.net.connected && h1 != h2 && Truthy(emailId)
    requires w1 == Step(w, h1, JoinRoomEvent(r1, emailId))
    requires w2 == Step(w1, h2, JoinRoomEvent(r2, emailId))
    requires w3 == Step(w2, h1, Disconnect)
    ensures emailId !in w3.reg.emailToSocket && Target(w3.reg, emailId) == None
    ensures h2 in w3.net.connected && Get(w3.reg.socketToEmail, h2) == Some(emailId)
  {
    RegistrySteps(w, h1, r1, emailId);
    RegistrySteps(w1, h2, r2, emailId);
    RegistrySteps(w2, h1, r2, emailId);
    StaleUnbindDropsLiveBinding(w.reg, h1, h2, emailId);
  }

  /** The other stale case. A socket joins as `e1`, then as `e2`, and disconnects: the
      forward entry of `e1` still resolves to the closed socket, but the closed socket is
      in no room, so a call to `e1` delivers nothing to it (ForwardMissesRoomless). */
  lemma StaleForwardEntryReachesNobody(w: World, h: SocketId, r1: Room, r2: Room, e1: Email, e2: Email,
                                       w1: World, w2: World, w3: World)
    requires e1 != e2 && Truthy(e2) && Truthy(h)
    requires w1 == Step(w, h, JoinRoomEvent(r1, e1))
    requires w2 == Step(w1, h, JoinRoomEvent(r2, e2))
    requires w3 == Step(w2, h, Disconnect)
    ensures Target(w3.reg, e1) == Some(h) && h !in w3.net.connected
    ensures forall q :: h !in Members(w3.net.rooms, q)
  {
    RegistrySteps(w, h, r1, e1);
    RegistrySteps(w1, h, r2, e2);
    RegistrySteps(w2, h, r2, e2);
    UnbindLeavesEarlierIdentity(w.reg, h, e1, e2);
  }

  /** The dispatch of socketRoutes.js and app.js: each occurrence runs its handler on the
      shared registry and network. */
  method Dispatch(io: Io, sig: Signaling, s: SocketId, ev: Inbound)
    requires io.Valid() && Enabled(World(sig.Reg(), io.State()), s, ev)
    modifies io, sig
    ensures io.Valid()
    ensures World(sig.Reg(), io.State()) == Step(old(World(sig.Reg(), io.State())), s, ev)
  {
    match ev
    case Connection => io.Connect(s);
    case JoinRoomEvent(roomId, emailId) => sig.HandleJoinRoom(io, s, roomId, emailId);
    case CallUserEvent(emailId, offer) => sig.HandleCallUser(io, s, emailId, offer);
    case CallAcceptedEvent(emailId, ans) => sig.HandleCallAccepted(io, s, emailId, ans);
    case CallDisconnectEvent(emailId) => sig.HandleCallDisconnect(io, s, emailId);
    case Disconnect =>
      io.Close(s);
      sig.HandleUserDisconnect(s);
    case JoinRoomRequest(room) => OnJoinRoom(io, s, room);
    case LeaveRoomRequest(room) => OnLeaveRoom(io, s, room);
    case RelayEvent(kind, room, data) => OnRelay(io, kind, room, data);
  }
}
