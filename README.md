# nodechat server core in Dafny

A model of the chat relay in `server.js` of nodechat. It covers the in-memory
participant registry (the `participants` array of `{id, name, channel}`
records), the rooms each Socket.IO connection has joined, and the four
connection handlers. Each handler mutates the registry, the rooms or both,
then broadcasts into a channel:

- `newUser`
- `nameChange`
- `channelChange`
- `disconnect`

The model also covers the `POST /message` route, which checks a message and
broadcasts it.

Layout:

- `wrappers.dfy`: `Option`, standing for JavaScript's `undefined`.
- `participants.dfy` (module `Participants`): the `Participant` record and
  the three Underscore queries the handlers use, written as functions.
  `Where` is `_.where` by channel. `FindById` is `_.findWhere` by id and
  returns the position of the record found. `Without` is `_.without` of that
  record. The module also holds lemmas on how the per-channel lists change
  when a record is appended, renamed, moved or removed.
- `messages.dfy` (module `Messages`): the emitted events (`Emit` = channel,
  event name, payload), the `trim` whitespace set, and `HandlePost`, the
  route's decision.
- `server.dfy` (module `Server`): rooms as `map<SocketId, set<Channel>>`, and
  the reach of an emit, `Audience`. The class `ChatServer` has fields
  `participants`, `rooms` and `outbox` (every emit so far, in order). Its
  methods are the handlers. The invariant `Synced` says ids are unique and
  the socket of each record has joined exactly one room, its record's
  channel; so a recorded socket hears an emit to a channel exactly when its
  record is in that channel's list. `nameChange`, `channelChange` and
  `disconnect` always preserve it. `newUser` preserves it only for a
  socket's first join, under its own id, from a socket in no room; a
  duplicate join breaks it (`DuplicateJoin`). `LobbyScenario` and `HallwayScenario` are clients
  that replay joins, a rename, a move and a double disconnect using only the
  contracts.

Behaviour modelled as the code has it, where a design for this system would
do otherwise:

- `newUser` has no duplicate guard. Its record carries `data.id`, while all
  other handlers look records up by `socket.id`.
- `nameChange` broadcasts to `data.channel`, with `data.id`, both taken from
  the payload and not from the registry.
- A handler that finds no record for `socket.id` throws a TypeError before
  it changes anything. The methods model this by returning `ok == false` with
  the state unchanged. So a second `disconnect` is not a silent no-op: it
  throws.
- A duplicate join leaves a stale record. Lookup finds the first record, so
  the later one is shadowed, and one disconnect removes only the first
  (`DuplicateJoin`).

## Model

| member | source | states |
|---|---|---|
| Participants.Where | server.js:97 | Every element of `_.where(participants, {channel})` has that channel, and the list is no longer than the registry |
| Participants.WhereMembers | server.js:97 | A record is in a channel's list if and only if it is in the registry with that channel |
| Participants.WhereAppend | server.js:97 | Filtering distributes over concatenation, so the channel list keeps registry order |
| Participants.WhereSplit | server.js:123 | A channel's list is the list of the records before i, then record i if it matches, then the records after i |
| Participants.WhereReplace | server.js:119 | After record i is replaced in place, a channel's list is the old prefix's list, then the new record if it matches, then the old suffix's list |
| Participants.FindById | server.js:115 | `_.findWhere` by id gives the first position whose record has that id; it is `undefined` (None) exactly when no record has that id |
| Participants.Without | server.js:133 | Removing the found record drops exactly that one position: length falls by one, the others keep their relative order, and the multiset loses just that record |
| Participants.WhereWithout | server.js:133 | After removal, a channel's list is its list before the removed position followed by its list after it |
| Participants.WhereRenamed | server.js:106 | Renaming a record leaves every other channel's list as it was; in the record's own channel the renamed record takes the old one's place |
| Participants.WhereMovedInto | server.js:119-123 | After the move, the `channelChanged` list for the new channel holds the moved record in its registry position, between the unchanged lists of the records before and after it |
| Participants.WhereMovedOut | server.js:119-122 | After moving away, the old channel's list equals its list with the record removed, which is what `userDisconnected` tells that channel |
| Participants.WhereMovedElsewhere | server.js:119 | A move leaves the list of every channel other than the old and the new one unchanged |
| Participants.WithoutFound | server.js:132-133 | With unique ids, removing the found record keeps ids unique and leaves no record with that id |
| Participants.DuplicateJoin | server.js:96 | When the id is already present, a second push makes ids non-unique. Later lookups still find the earlier record, and removing it leaves the new one |
| Messages.TrimStart | server.js:70 | The result is a suffix of the input with only whitespace cut off, and it does not start with whitespace |
| Messages.TrimEnd | server.js:70 | The result is a prefix of the input with only whitespace cut off, and it does not end with whitespace |
| Messages.WhitespaceIsTrimmedChars | server.js:70 | The whitespace test of `trim` accepts exactly the ECMAScript WhiteSpace and LineTerminator characters, listed one by one |
| Messages.Trim | server.js:70 | `message.trim()` has no whitespace at either end, and it is empty if and only if every character of the message is whitespace |
| Messages.TrimSlice | server.js:70 | `message.trim()` is the slice of the message after its leading whitespace, and everything cut from either end is whitespace |
| Messages.HandlePost | server.js:64-84 | An absent or all-whitespace message gets 400 `{error: "Message is invalid"}` with no emit. Any other message gets 200 `{message: "Message received"}` and one `incomingMessage {message, name}` to the body's channel |
| Server.Join | server.js:95 | `socket.join(c)` puts the socket in room c and changes no other membership of any socket |
| Server.Leave | server.js:118 | `socket.leave(c)` takes the socket out of room c and changes no other membership of any socket |
| Server.Audience | server.js:122-123 | For a non-empty channel name c, `io.sockets.in(c)` reaches exactly the sockets that have joined room c |
| Server.JoinAudience | server.js:95 | `socket.join(c)` adds the socket to c's audience and changes no other channel's audience |
| Server.LeaveAudience | server.js:118 | `socket.leave(c)` removes the socket from c's audience and changes no other channel's audience |
| Server.MoveAudience | server.js:118-120 | After leave-old then join-new, the new channel's audience gains the socket; if the channels differ, the old channel's audience loses it |
| Server.SyncedAudience | server.js:95-120 | In a synced state a recorded socket is in the audience of channel c if and only if its record is in c's list |
| Server.NewUserKeepsSynced | server.js:95-96 | A socket's first join, under its own id and from a socket in no room, keeps ids unique and each recorded socket in exactly its record's channel's room |
| Server.NameChangeKeepsSynced | server.js:106 | A rename keeps ids unique and each recorded socket in exactly its record's channel's room |
| Server.ChannelChangeKeepsSynced | server.js:115-120 | Leaving the old channel, moving the record and joining the new channel keep ids unique and leave the moved socket in the new channel's room only |
| Server.DisconnectKeepsSynced | server.js:132-133 | Removing the socket's record keeps ids unique and each remaining recorded socket in exactly its record's channel's room, and leaves no record for that socket |
| Server.ChatServer.constructor | server.js:31 | The registry starts empty, with no rooms and no emits; the invariant holds |
| Server.ChatServer.NewUser | server.js:94-98 | After `join(data.channel)`, exactly one record `{data.id, data.name, data.channel}` is appended and earlier records are unchanged. Exactly one `newConnection` goes to data.channel; its list is the post-push channel list, that is the old list plus the new record. The invariant is kept for a socket's first join under its own id from a socket in no room. When data.id already has a record, ids stop being unique and lookups of data.id still find the earlier record |
| Server.ChatServer.NameChange | server.js:105-108 | With no record for socket.id, nothing changes (the handler throws). Otherwise only the first such record's name becomes data.name, rooms are unchanged, and one `nameChanged {data.id, data.name}` goes to data.channel. Every channel other than the record's own keeps its list. The invariant is kept |
| Server.ChatServer.ChannelChange | server.js:114-124 | With no record, nothing changes. Otherwise oldChannel is read before any mutation; only that record's channel becomes data.channel; rooms become old rooms minus oldChannel plus data.channel. Two emits follow in order: `userDisconnected {socket.id, "system"}` to oldChannel, then `channelChanged` with the post-move list of data.channel, which contains the moved record. At emit time the socket is in the new channel's audience and, if the channels differ, not in the old one's. Every channel other than the old and the new one keeps its list. The invariant is kept |
| Server.ChatServer.Disconnect | server.js:131-135 | With no record, nothing changes. Otherwise exactly the first record of socket.id is removed, order kept, and one `userDisconnected {socket.id, "system"}` goes to that record's channel. From a synced state, no record for the socket remains, so a second disconnect throws |
| Server.ChatServer.PostMessage | server.js:64-84 | The route answers with HandlePost's response and appends its emits; the registry and rooms are not touched |

## Left out

- Express setup, configuration and the `GET /` render (server.js:36-61,
  141-143): process and I/O plumbing with no state of the core.
- Socket.IO transport: connection set-up, framing and delivery. An emit is an
  `Emit` record appended to `outbox`; it records the channel, not the
  sockets that received it. Its recipients are `Audience` over `rooms` at
  emit time, which no handler changes after its emits; they are stated per
  call, in `ChannelChange`'s contract, and are lost for earlier entries once
  a later handler joins or leaves a room.
- The transport's own cleanup of a closed socket's rooms. The model follows
  Socket.IO 0.9, the version of the `io.listen(http)` and
  `express.bodyParser()` era the server is written for, where rooms are left
  after the `disconnect` handler has run (from 1.0 on, `leaveAll()` runs
  before it): the handler itself leaves `rooms` as
  they were, and the model does too. The room a socket holds on connecting
  is not modelled either; rooms start empty.
- Concurrency: Node runs each handler to completion on one event loop, so
  each handler is a single method call.
- Object identity: records are values, and `_.findWhere` yields a position,
  not a reference. `_.without` removes by reference, and every pushed record
  is a fresh object, so removal is exactly the found position.
- Payload typing: payload fields are strings. A missing or non-string
  `data.name`/`data.channel`/`data.id`, or a non-string `message` (whose
  `trim` would throw), is outside the model. A `message` that is present but
  `null` is too.
- Server.Audience: exact only for a non-empty channel name. In Socket.IO
  0.9, `in("")` and `in(undefined)` (a `POST /message` body without
  `channel`) address the namespace's own room, which every connected socket
  joins on connecting, so they reach every connected socket, while
  `socket.join("")` joins a different room. The model treats `""` as an
  ordinary room, so `Audience`, `SyncedAudience` and `ChannelChange`'s
  audience clauses say nothing true of the empty channel name.
- Messages.IsWhitespace: the whitespace set of `trim` is written out as the
  ECMAScript WhiteSpace and LineTerminator characters of current Unicode;
  U+180E, which older engines also strip, is not in it.
- Exceptions: a throwing handler is modelled as returning `ok == false` with
  no change. What Node then does with the uncaught TypeError is not modelled.
