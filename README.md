# Real-time collaboration, call signalling and job-assistant chat: a Dafny model

This project models the stateful core of a Node.js job-portal backend:

- **Call signalling** (`controllers/socketController.js`). Two module-level maps bind a
  caller-chosen identity (`emailId`) to a socket.io connection id and back. Five handlers use
  them:
  - `join-room` binds the identity, joins the room and announces the joiner.
  - `call-user`, `call-accepted` and `call-disconnect` look up a peer and forward to it.
  - `disconnect` unbinds the closing connection.
  
  The maps are the fields of the class `SocketController.Signaling`. The handlers are its
  methods, each proved equal to a pure function over a `World`, which pairs the registry
  with the network.
- **Collaboration relay** (`app.js:60-96`). `joinRoom`/`leaveRoom` change room membership.
  Six editor events are re-emitted, with their data untouched, under fixed new names
  (`message` → `recieve-message`, and so on) to every member of the named room
  (module `App`).
- **socket.io itself**, as far as the handlers rely on it (module `Transport`):
  - the live connections;
  - named rooms, where a connection joins the room named by its own id when it connects
    (it can leave that room later with `leaveRoom`), and an emptied room is deleted;
  - each connection's inbox, oldest first.
  
  `socket.emit` reaches only the sender. `socket.to(r)` and `socket.broadcast.to(r)` follow
  socket.io version 4: they reach the members of `r` that are not in the room named by the
  sender's id. That room normally holds the sender alone, but it holds nobody once the sender
  has left it, and it also holds any connection that joined it by name. `io.to(r)` reaches
  every member of `r`. On a disconnect, the connection leaves all its rooms before the
  `disconnect` handler runs.
- **Dispatch** (`routes/socketRoutes.js`, module `SocketRoutes`). Every inbound
  occurrence is one atomic step. The module proves an invariant over every admissible run
  and proves two multi-step consequences of how the registry is written.
- **Job-assistant chat** (`controllers/chatbotController.js`, module `ChatbotController`).
  It has two parts:
  - `getFallbackResponse`, an ordered keyword classifier over the lower-cased message;
  - the per-user `chatHistory` map and the handlers `startChat`, `sendMessage`, `endChat`
    and `getFallbackResponseFromServer`, as the class `ChatbotController.Chatbot`.
  
  The language-model call is an input: its outcome (`Success(text)` or
  `Failure(errorMessage)`). `MAX_HISTORY_LENGTH` is a constructor parameter, absent when
  it is unset.

Behaviour of the code worth knowing, each proved in the model:

- Binding an identity to a new connection does **not** remove the old connection's reverse
  entry (`socketController.js:10-11`). `SocketController.RebindKeepsStaleReverse` shows
  this. `SocketRoutes.StaleDisconnectStrandsLiveSocket` shows the consequence: when the old
  connection later disconnects, the identity's forward entry is deleted although it points
  at the new, live connection. From then on every call to that identity is dropped, until the
  identity joins again (`socketController.js:10`).
- The relay uses `io.to(room)`, so a sender that is in the room receives its own event back
  (`App.RelayReachesRoomMembers`). It is not "every member except the sender".
- `leaveRoom` notifies nobody (`App.LeaveRoomOnlyThatRoom`).
- `socket.to(target)` leaves out the room named by the sender's id, so an identity that calls
  itself reaches nobody. A target that has joined the caller's own room by name is not
  reached either (`SocketController.ForwardReachesOnlyTarget`).

The fixed texts of the chat are the datatype `ChatbotController.Wording`, with the exact
strings in `ChatbotController.Text`. These texts are the instructions, the greetings, the
seven offline replies, the three model-error replies and the response messages. Histories
and responses hold a `Content`: either one of these wordings or a text said by the user or
the model.

## Model

| member | source | states |
|---|---|---|
| JsString.ToLowerForgetsCase | controllers/chatbotController.js:29 | lower-casing is idempotent, undoes upper-casing, and two strings have the same lower-case form exactly when they differ only in the case of letters |
| JsString.IncludesFindsOccurrence | controllers/chatbotController.js:31 | `includes` is true exactly when the keyword occurs at some index of the message (proved by induction over the scan) |
| Transport.AddMember | app.js:64 | joining puts the socket in that room, adds it to that room only, and keeps every other room's members |
| Transport.AddMemberIdempotent | app.js:63-66 | joining a room twice is the same as joining it once |
| Transport.RemoveMember | app.js:69 | leaving takes the socket out of that room only; the room is deleted exactly when it becomes empty |
| Transport.RemoveEverywhere | routes/socketRoutes.js:12 | a closing connection is taken out of every room, no other member changes, and no empty room is kept |
| Transport.Deliver | controllers/socketController.js:14-15 | an emission appends the event to the inbox of every recipient, once, and leaves every other inbox unchanged |
| Transport.Opened | routes/socketRoutes.js:6 | a new connection is live and joins the room named by its own id, and no other room or inbox changes; the adapter invariant is kept: stored rooms are non-empty and hold live connections only |
| Transport.ExceptSender | controllers/socketController.js:15 | `socket.to(r)` reaches only members of `r`, and never the sender while the sender is in its own room |
| Transport.Closed | routes/socketRoutes.js:12 | closing keeps the adapter invariant, and afterwards the connection is in no room |
| Transport.Joined | controllers/socketController.js:13 | joining a room with a live connection keeps the adapter invariant |
| Transport.Left | app.js:69 | leaving keeps the adapter invariant |
| Transport.EmissionsReachLiveOnly | controllers/socketController.js:14-15 | every kind of emission only appends to inboxes, and only to the inboxes of live connections; an emission to an empty room changes nothing |
| Transport.Io.constructor | app.js:52 | a new server has no connections, rooms or deliveries |
| Transport.Io.Connect | app.js:60 | the connection event adds the connection and its own room, keeping the invariant |
| Transport.Io.Close | routes/socketRoutes.js:12 | a disconnect removes the connection from all rooms, keeping the invariant |
| Transport.Io.Join | controllers/socketController.js:13 | `socket.join` in place equals `Joined` |
| Transport.Io.Leave | app.js:69 | `socket.leave` in place equals `Left` |
| Transport.Io.EmitToSelf | controllers/socketController.js:14 | `socket.emit` in place delivers to the sender only |
| Transport.Io.EmitExcept | controllers/socketController.js:15 | `socket.broadcast.to(r)` / `socket.to(r)` in place deliver to the members of `r` outside the room named by the sender's id |
| Transport.Io.EmitToRoom | app.js:74 | `io.to(r)` in place delivers to every member |
| SocketController.JoinRoomEffect | controllers/socketController.js:6-16 | join-room binds the identity to the socket in both directions and changes no other entry; the socket joins the room and no other membership changes; the joiner gets `joined-room {roomId}`; `user-joined {emailId}` goes to every member of the room that is not in the room named by the joiner's id (so to the joiner too, once it has left its own room); nobody else gets anything |
| SocketController.JoinRoomAnnouncesToOthers | controllers/socketController.js:14-15 | when the joiner is alone in its own room and joins another room, it gets only `joined-room`, and every earlier member of the room gets `user-joined` and nothing else |
| SocketController.BindIdempotent | controllers/socketController.js:10-11 | binding the same identity from the same socket twice equals binding it once |
| SocketController.RebindKeepsStaleReverse | controllers/socketController.js:10-11 | after binding an identity from h1 and then from h2, the identity resolves to h2 while h1 still maps back to the identity |
| SocketController.StaleUnbindDropsLiveBinding | controllers/socketController.js:48-56 | after that rebind, unbinding h1 deletes the identity's forward entry, which pointed at h2, and leaves h2 mapped back to the identity |
| SocketController.UnbindLeavesEarlierIdentity | controllers/socketController.js:48-56 | a socket that bound e1 and then e2 and is unbound keeps e1's forward entry pointing at it |
| SocketController.SignallingForwards | controllers/socketController.js:18-46 | the three signalling handlers change neither map and no room; they do nothing when the identity does not resolve (missing or empty); otherwise they deliver `incoming-call {from, offer}`, `call-accepted {ans}` or `call-disconnected {from}` to the members of the resolved socket's room outside the room named by the sender's id, with `from` the sender's bound identity |
| SocketController.ForwardReachesOnlyTarget | controllers/socketController.js:23-25 | when the target is alone in its own room, a forwarded event reaches nobody but the target; the target gets it exactly once unless it is in the room named by the sender's id; a self-call reaches nobody |
| SocketController.ForwardMissesRoomless | controllers/socketController.js:33-35 | a socket in no room receives nothing from a signalling event |
| SocketController.UnbindIdempotent | controllers/socketController.js:49-51 | disconnecting a socket without a truthy identity changes nothing, and unbinding twice equals unbinding once |
| SocketController.UnbindRemovesBothEntries | controllers/socketController.js:51-53 | disconnecting a socket bound to e removes its reverse entry and e's forward entry, whichever socket that pointed at, and no other entry |
| SocketController.Signaling.constructor | controllers/socketController.js:3-4 | both maps start empty |
| SocketController.Signaling.HandleJoinRoom | controllers/socketController.js:6-16 | the in-place handler equals `JoinRoom` on registry and network |
| SocketController.Signaling.HandleCallUser | controllers/socketController.js:18-26 | the in-place handler equals `CallUser` |
| SocketController.Signaling.HandleCallAccepted | controllers/socketController.js:29-36 | the in-place handler equals `CallAccepted` |
| SocketController.Signaling.HandleCallDisconnect | controllers/socketController.js:38-46 | the in-place handler equals `CallDisconnect` |
| SocketController.Signaling.HandleUserDisconnect | controllers/socketController.js:48-56 | the in-place handler equals `Unbind` |
| App.ParseRelay | app.js:73-95 | a name is dispatched to a relay kind exactly when it is that kind's inbound name, and to none when no kind has that name |
| App.RenamingIsOneToOne | app.js:73-95 | each inbound name is dispatched to its own kind, and different kinds go out under different names |
| App.RelayReachesRoomMembers | app.js:73-95 | a relay delivers the data unchanged, under the renamed event, to every current member of the room, the sender included, and to nobody else; membership is unchanged; an empty room receives nothing |
| App.JoinRoomIdempotent | app.js:63-66 | joinRoom puts the socket in the room, changes no other room, and a second join changes nothing |
| App.LeaveRoomOnlyThatRoom | app.js:68-71 | leaveRoom removes the socket from that room only, sends nothing and keeps the live connections |
| App.OnJoinRoom | app.js:63-66 | the in-place handler equals `Joined` |
| App.OnLeaveRoom | app.js:68-71 | the in-place handler equals `Left` |
| App.OnRelay | app.js:73-95 | the in-place handler equals `Relay` |
| SocketRoutes.StepKeepsInv | routes/socketRoutes.js:6-13 | every enabled step keeps the invariant (the adapter invariant, and no closed socket in the reverse map with a truthy identity) and only appends to inboxes of connections that were live |
| SocketRoutes.RunKeepsInv | routes/socketRoutes.js:6-13 | over any admissible sequence of occurrences the invariant holds at the end, and every inbox at the end extends the one at the start |
| SocketRoutes.OtherEventsKeepRegistry | controllers/socketController.js:18-46 | a run with no join-room and no disconnect leaves both maps unchanged |
| SocketRoutes.RegistrySteps | routes/socketRoutes.js:8-12 | join-room changes the registry by `Bind` and keeps the live connections; disconnect changes it by `Unbind`, removes the connection from the live set and from every room, and delivers nothing |
| SocketRoutes.StaleDisconnectStrandsLiveSocket | controllers/socketController.js:48-56 | join from h1, join the same identity from h2, then disconnect h1: afterwards the identity does not resolve, while h2 is live and still maps back to it |
| SocketRoutes.StaleForwardEntryReachesNobody | controllers/socketController.js:48-56 | join as e1, join as e2, then disconnect, all from one socket: e1 still resolves to the closed socket, which is in no room |
| SocketRoutes.Dispatch | routes/socketRoutes.js:6-13 | dispatching an occurrence to its handler on the shared objects equals `Step` and keeps the adapter invariant |
| ChatbotController.FirstMatch | controllers/chatbotController.js:31-61 | the result is the first rule in the given order that the message passes, with no earlier rule passing, or none when no rule passes |
| ChatbotController.GetFallbackResponse | controllers/chatbotController.js:28-62 | the reply is always one of the seven offline replies |
| ChatbotController.FallbackIsFirstMatch | controllers/chatbotController.js:28-62 | the classifier gives the reply of the first rule that the lower-cased message passes, in the order job search, resume, interview, skills, application status, salary, and the default reply when it passes none |
| ChatbotController.FirstMatchingRuleWins | controllers/chatbotController.js:31-58 | rule i decides the reply exactly when the lower-cased message passes it and none of the rules before it; the default reply is given exactly when the message passes no rule |
| ChatbotController.FallbackIgnoresCase | controllers/chatbotController.js:29 | messages that differ only in letter case get the same reply, and upper-casing a message does not change its reply |
| ChatbotController.JobAloneIsNotJobSearch | controllers/chatbotController.js:31 | without "search", "find" or "looking" the job-search reply is never given, whatever else the message holds |
| ChatbotController.AiErrorClasses | controllers/chatbotController.js:195-205 | after a failed model call the reply is one of three; the model-configuration reply is given exactly when the error text contains "models/"; the quota reply exactly when it contains "quota" but not "models/"; the general reply otherwise, including for a missing error text |
| ChatbotController.Trimmed | controllers/chatbotController.js:178-182 | a trimmed history has length MAX (1 when MAX is 0), keeps the first entry, and then holds the newest MAX-1 entries in order |
| ChatbotController.KeptWithinLimit | controllers/chatbotController.js:178-182 | the trim leaves a history within the limit unchanged and cuts any other to exactly the limit, keeping the first entry |
| ChatbotController.Started | controllers/chatbotController.js:75-95 | startChat creates a two-entry history that starts with the instructions, only for a user who has none; an existing history and other users' histories are unchanged |
| ChatbotController.SendResponse | controllers/chatbotController.js:119-214 | sendMessage answers 400 with "Message is required" exactly when the message is absent or empty; otherwise 200 with `success`, the reply that was stored, and the message of its path: fallback provided without a model, processed on success, fallback due to AI error on failure |
| ChatbotController.SentAppendsOneTurn | controllers/chatbotController.js:126-209 | a message changes only its sender's history; without a model, after a failed call, with no limit set, or when the result stays within the limit, that history is the previous one (or the instructions alone) followed by the user's entry and exactly one model entry holding the sent reply |
| ChatbotController.SuccessKeepsLimit | controllers/chatbotController.js:175-182 | after a successful reply under limit MAX the first entry stays; the history grows by two while within the limit; when it goes over, it is the trim of the previous history plus the two new entries, of length exactly MAX (1 for MAX 0); the newest entry is the model's reply whenever MAX is at least 2 |
| ChatbotController.HandlersKeepContextFirst | controllers/chatbotController.js:127-182 | startChat, sendMessage (across the trim) and endChat keep the instructions as the first entry of every history |
| ChatbotController.StartAndEnd | controllers/chatbotController.js:65-248 | startChat twice equals startChat once; endChat deletes exactly the user's history and is a no-op without one; a startChat after endChat starts afresh |
| ChatbotController.GetFallbackResponseFromServer | controllers/chatbotController.js:251-277 | 400 with "Message is required" and no `success` exactly for an absent or empty message; otherwise 200 with `success`, "Fallback response provided" and the classifier's reply |
| ChatbotController.Chatbot.constructor | controllers/chatbotController.js:4-9 | no histories; model availability and the limit are as configured |
| ChatbotController.Chatbot.StartChat | controllers/chatbotController.js:65-110 | the in-place handler equals `Started` with `StartResponse`, keeping the instructions first |
| ChatbotController.Chatbot.EnsureHistory | controllers/chatbotController.js:127-131 | a missing history is created holding the instructions alone |
| ChatbotController.Chatbot.Push | controllers/chatbotController.js:137 | `history.push` appends to the stored history and changes nothing else |
| ChatbotController.Chatbot.SendMessage | controllers/chatbotController.js:113-224 | the in-place handler leaves the map unchanged for a rejected message and otherwise equals `Sent`; its response equals `SendResponse`; the instructions stay first |
| ChatbotController.Chatbot.EndChat | controllers/chatbotController.js:227-248 | the user's history is deleted and nothing else changes |

## Left out

- I/O is left out: console logging, the HTTP framework, and the JSON encoding of bodies. A response is modelled as its status, `success`, message and extra field.
- The language-model service is left out. It is an input outcome, so its `startChat`/`sendMessage` API, the `history.slice(0, -1)` it receives, and the `generationConfig` numbers are not modelled.
- The 500 responses of the `catch` blocks are left out. They are reached only through exceptions, for example a non-string message, that the model's types exclude.
- The user id fallback (`req.body.userId || req.user?._id || session_<time>`) is left out: the user id is an input.
- `MAX_HISTORY_LENGTH` is modelled only as absent or a natural number. An empty or blank value converts to 0, so it behaves as the limit 0 (`Some(0)`: the history is cut to its first entry). Any other non-numeric value converts to NaN, compares false and behaves as absent (`None`). Negative or fractional values are not modelled.
- `toLowerCase` maps only the ASCII letters. Unicode case mapping is not modelled.
- ChatbotController.Text: the exact strings are given, but nothing is proved about them. Proving anything about literals this long costs far more than the solver budget. All reasoning is about `Wording` values, which are distinct by construction.
- ChatbotController.GetFallbackResponse: its own contract says only that the reply is one of the seven offline replies. Which reply is given is stated by `FallbackIsFirstMatch` and `FirstMatchingRuleWins`.
- A missing payload is left out. When an event arrives with no payload, the destructuring at `controllers/socketController.js:7,19,30,39` and `app.js:73` throws inside the listener, and nothing else happens. The model always receives a payload.
- Signalling payloads are simplified. A missing `emailId`, `offer`, `ans` or `roomId` would be `undefined`; the model takes them as strings. Relayed `data` is an uninterpreted serialised value.
- Concurrency is left out: each handler is one atomic step. The model also ignores what another request could see while `sendMessage` awaits the model.
- Where the signalling handlers are registered is left out. `routes/socketRoutes.js` registers them, but its caller is not part of this model. Both handler sets are taken to share one server and its rooms.
- Reconnection, acknowledgements and delivery failures inside socket.io are left out: a delivery to a member's inbox always succeeds.
