/**
 * The Socket.IO side of the chat server: the rooms each socket has joined,
 * and the connection handlers, each of which mutates the registry, the rooms
 * or both, then broadcasts. Node runs one handler at a time to completion,
 * so each handler is one method call.
 */
module Server {
  import opened Wrappers
  import opened Participants
  import opened Messages

  /** The rooms (channels) each socket has joined. */
  type Rooms = map<SocketId, set<Channel>>

  function RoomsOf(rooms: Rooms, s: SocketId): set<Channel>
  {
    if s in rooms then rooms[s] else {}
  }

  /** `socket.join(c)`: s is in room c afterwards, and no other membership changes. */
  function Join(rooms: Rooms, s: SocketId, c: Channel): (r: Rooms)
    ensures forall t, d :: d in RoomsOf(r, t) <==> d in RoomsOf(rooms, t) || (t == s && d == c)
  {
    rooms[s := RoomsOf(rooms, s) + {c}]
  }

  /** `socket.leave(c)`: s is not in room c afterwards, and no other membership changes. */
  function Leave(rooms: Rooms, s: SocketId, c: Channel): (r: Rooms)
    ensures forall t, d :: d in RoomsOf(r, t) <==> d in RoomsOf(rooms, t) && !(t == s && d == c)
  {
    rooms[s := RoomsOf(rooms, s) - {c}]
  }

  /** The sockets an emit to channel c reaches, `io.sockets.in(c)`: those that have joined room c. */
  function Audience(rooms: Rooms, c: Channel): (r: set<SocketId>)
    ensures forall t :: t in r <==> c in RoomsOf(rooms, t)
  {
    set s | s in rooms && c in rooms[s]
  }

  /** After `socket.join(c)`, c's audience gains s and no other audience changes. */
  lemma JoinAudience(rooms: Rooms, s: SocketId, c: Channel, d: Channel)
    ensures Audience(Join(rooms, s, c), d) == if d == c then Audience(rooms, d) + {s} else Audience(rooms, d)
  {
  }

  /** After `socket.leave(c)`, c's audience loses s and no other audience changes. */
  lemma LeaveAudience(rooms: Rooms, s: SocketId, c: Channel, d: Channel)
    ensures Audience(Leave(rooms, s, c), d) == if d == c then Audience(rooms, d) - {s} else Audience(rooms, d)
  {
  }

  /**
   * `socket.leave(from)` then `socket.join(to)`: to's audience gains s and,
   * when the channels differ, from's audience loses it.
   */
  lemma MoveAudience(rooms: Rooms, s: SocketId, from: Channel, to: Channel)
    ensures Audience(Join(Leave(rooms, s, from), s, to), to) == Audience(rooms, to) + {s}
    ensures from != to ==> Audience(Join(Leave(rooms, s, from), s, to), from) == Audience(rooms, from) - {s}
  {
    LeaveAudience(rooms, s, from, to);
    JoinAudience(Leave(rooms, s, from), s, to, to);
    LeaveAudience(rooms, s, from, from);
    JoinAudience(Leave(rooms, s, from), s, to, from);
  }

  /**
   * The registry and the rooms agree: one record per id, and the socket of
   * every record has joined exactly one room, its record's channel.
   */
  ghost predicate Synced(ps: seq<Participant>, rooms: Rooms)
  {
    && Unique(ps)
    && forall k :: 0 <= k < |ps| ==> RoomsOf(rooms, ps[k].id) == {ps[k].channel}
  }

  /**
   * In a synced state a recorded socket is reached by an emit to channel c
   * exactly when its record is in c's list.
   */
  lemma SyncedAudience(ps: seq<Participant>, rooms: Rooms, k: nat, c: Channel)
    requires Synced(ps, rooms) && k < |ps|
    ensures ps[k].id in Audience(rooms, c) <==> ps[k] in Where(ps, c)
  {
    WhereMembers(ps, c);
    if ps[k] in Where(ps, c) {
      assert ps[k].channel == c;
    }
  }

  /**
   * A first join by socket s, under its own id and from a socket in no room,
   * keeps the registry and rooms in step.
   */
  lemma NewUserKeepsSynced(ps: seq<Participant>, rooms: Rooms, s: SocketId, p: Participant)
    requires Synced(ps, rooms) && FindById(ps, s).None? && RoomsOf(rooms, s) == {} && p.id == s
    ensures Synced(ps + [p], Join(rooms, s, p.channel))
  {
    var qs, r := ps + [p], Join(rooms, s, p.channel);
    forall k | 0 <= k < |qs| ensures RoomsOf(r, qs[k].id) == {qs[k].channel} {
      if k < |ps| {
        assert qs[k] == ps[k] && ps[k].id != s;
        assert RoomsOf(r, qs[k].id) == RoomsOf(rooms, qs[k].id);
      } else {
        assert RoomsOf(r, s) == {p.channel};
      }
    }
  }

  /** A rename keeps the registry and rooms in step. */
  lemma NameChangeKeepsSynced(ps: seq<Participant>, rooms: Rooms, i: nat, name: string)
    requires Synced(ps, rooms) && i < |ps|
    ensures Synced(ps[i := ps[i].(name := name)], rooms)
  {
    var qs := ps[i := ps[i].(name := name)];
    assert forall k :: 0 <= k < |ps| ==> qs[k].id == ps[k].id && qs[k].channel == ps[k].channel;
  }

  /** Leaving the old channel, joining the new one and moving the record keep them in step. */
  lemma ChannelChangeKeepsSynced(ps: seq<Participant>, rooms: Rooms, s: SocketId, c: Channel)
    requires Synced(ps, rooms) && FindById(ps, s).Some?
    ensures
      var i := FindById(ps, s).value;
      Synced(ps[i := ps[i].(channel := c)], Join(Leave(rooms, s, ps[i].channel), s, c))
  {
    var i := FindById(ps, s).value;
    var qs, r := ps[i := ps[i].(channel := c)], Join(Leave(rooms, s, ps[i].channel), s, c);
    forall k | 0 <= k < |qs| ensures RoomsOf(r, qs[k].id) == {qs[k].channel} {
      if k != i {
        assert qs[k] == ps[k] && ps[k].id != s;
        assert RoomsOf(r, qs[k].id) == RoomsOf(rooms, qs[k].id);
      } else {
        assert RoomsOf(rooms, s) == {ps[i].channel};
        assert RoomsOf(r, s) == {c};
      }
    }
  }

  /** Removing the socket's record keeps them in step and leaves no record for the socket. */
  lemma DisconnectKeepsSynced(ps: seq<Participant>, rooms: Rooms, s: SocketId)
    requires Synced(ps, rooms) && FindById(ps, s).Some?
    ensures Synced(Without(ps, FindById(ps, s).value), rooms)
    ensures FindById(Without(ps, FindById(ps, s).value), s).None?
  {
    var i := FindById(ps, s).value;
    var qs := Without(ps, i);
    WithoutFound(ps, s);
    forall k | 0 <= k < |qs| ensures RoomsOf(rooms, qs[k].id) == {qs[k].channel} {
      var k' := if k < i then k else k + 1;
      assert qs[k] == ps[k'];
    }
  }

  /** The payload of the newUser event. */
  datatype NewUserData = NewUserData(id: SocketId, name: string, channel: Channel)

  /** The payload of the nameChange event. */
  datatype NameChangeData = NameChangeData(id: SocketId, name: string, channel: Channel)

  /** The payload of the channelChange event. */
  datatype ChannelChangeData = ChannelChangeData(channel: Channel)

  /**
   * The server's state: the participants array, each socket's rooms, and
   * every emit made so far, in order.
   */
  class ChatServer {
    var participants: seq<Participant>
    var rooms: Rooms
    var outbox: seq<Emit>

    ghost predicate Valid()
      reads this
    {
      Synced(participants, rooms)
    }

    constructor ()
      ensures participants == [] && rooms == map[] && outbox == []
      ensures Valid()
    {
      participants, rooms, outbox := [], map[], [];
    }

    /**
     * newUser: join data.channel, push the record built from the payload,
     * and send the channel's list, taken after the push, to that channel.
     */
    method NewUser(socket: SocketId, data: NewUserData)
      modifies this
      ensures rooms == Join(old(rooms), socket, data.channel)
      ensures participants == old(participants) + [Participant(data.id, data.name, data.channel)]
      ensures outbox == old(outbox) + [Emit(data.channel, NewConnectionEvent, ParticipantList(Where(participants, data.channel)))]
      ensures Where(participants, data.channel) == Where(old(participants), data.channel) + [Participant(data.id, data.name, data.channel)]
      ensures old(Valid()) && data.id == socket && old(FindById(participants, socket)).None? && RoomsOf(old(rooms), socket) == {} ==> Valid()
      ensures old(FindById(participants, data.id)).Some? ==>
        !Unique(participants) && FindById(participants, data.id) == old(FindById(participants, data.id))
    {
      ghost var before := participants;
      rooms := Join(rooms, socket, data.channel);
      var p := Participant(data.id, data.name, data.channel);
      participants := participants + [p];
      outbox := outbox + [Emit(data.channel, NewConnectionEvent, ParticipantList(Where(participants, data.channel)))];
      WhereAppend(before, [p], data.channel);
      if old(Valid()) && data.id == socket && FindById(before, socket).None? && RoomsOf(old(rooms), socket) == {} {
        NewUserKeepsSynced(before, old(rooms), socket, p);
      }
      if FindById(before, data.id).Some? {
        DuplicateJoin(before, p);
      }
    }

    /**
     * nameChange: rename the first record of socket's id, then tell
     * data.channel that data.id is now data.name. With no record the
     * handler throws before doing anything, and ok is false.
     */
    method NameChange(socket: SocketId, data: NameChangeData) returns (ok: bool)
      modifies this
      ensures ok == old(FindById(participants, socket)).Some?
      ensures !ok ==> participants == old(participants) && rooms == old(rooms) && outbox == old(outbox)
      ensures ok ==>
        var i := old(FindById(participants, socket)).value;
        && participants == old(participants)[i := old(participants)[i].(name := data.name)]
        && rooms == old(rooms)
        && outbox == old(outbox) + [Emit(data.channel, NameChangedEvent, NameChanged(data.id, data.name))]
      ensures ok ==>
        var i := old(FindById(participants, socket)).value;
        forall c :: c != old(participants)[i].channel ==> Where(participants, c) == Where(old(participants), c)
      ensures old(Valid()) ==> Valid()
    {
      var found := FindById(participants, socket);
      if found.None? {
        return false;
      }
      var i := found.value;
      if Valid() {
        NameChangeKeepsSynced(participants, rooms, i, data.name);
      }
      ghost var before := participants;
      participants := participants[i := participants[i].(name := data.name)];
      outbox := outbox + [Emit(data.channel, NameChangedEvent, NameChanged(data.id, data.name))];
      forall c | c != before[i].channel ensures Where(participants, c) == Where(before, c) {
        WhereRenamed(before, i, data.name, c);
      }
      ok := true;
    }

    /**
     * channelChange: read the old channel from socket's record, leave it,
     * move the record, join the new channel, then tell the old channel
     * socket left and send the new channel its list, taken after the move.
     * With no record the handler throws before doing anything.
     */
    method ChannelChange(socket: SocketId, data: ChannelChangeData) returns (ok: bool)
      modifies this
      ensures ok == old(FindById(participants, socket)).Some?
      ensures !ok ==> participants == old(participants) && rooms == old(rooms) && outbox == old(outbox)
      ensures ok ==>
        var i := old(FindById(participants, socket)).value;
        var oldChannel := old(participants)[i].channel;
        && participants == old(participants)[i := old(participants)[i].(channel := data.channel)]
        && rooms == Join(Leave(old(rooms), socket, oldChannel), socket, data.channel)
        && outbox == old(outbox) + [
             Emit(oldChannel, UserDisconnectedEvent, UserLeft(socket, SystemSender)),
             Emit(data.channel, ChannelChangedEvent, ParticipantList(Where(participants, data.channel)))]
      ensures ok ==>
        var i := old(FindById(participants, socket)).value;
        var oldChannel := old(participants)[i].channel;
        && Where(participants, data.channel)
             == Where(old(participants)[..i], data.channel) + [participants[i]] + Where(old(participants)[i + 1..], data.channel)
        && (oldChannel != data.channel ==> Where(participants, oldChannel) == Where(Without(old(participants), i), oldChannel))
        && Audience(rooms, data.channel) == Audience(old(rooms), data.channel) + {socket}
        && (oldChannel != data.channel ==> Audience(rooms, oldChannel) == Audience(old(rooms), oldChannel) - {socket})
      ensures ok ==>
        var i := old(FindById(participants, socket)).value;
        forall c :: c != data.channel && c != old(participants)[i].channel ==> Where(participants, c) == Where(old(participants), c)
      ensures old(Valid()) ==> Valid()
    {
      var found := FindById(participants, socket);
      if found.None? {
        return false;
      }
      var i := found.value;
      var oldChannel := participants[i].channel;
      var newChannel := data.channel;
      ghost var before, roomsBefore, wasValid := participants, rooms, Valid();

      rooms := Leave(rooms, socket, oldChannel);
      participants := participants[i := participants[i].(channel := data.channel)];
      rooms := Join(rooms, socket, newChannel);
      outbox := outbox + [Emit(oldChannel, UserDisconnectedEvent, UserLeft(socket, SystemSender))];
      outbox := outbox + [Emit(newChannel, ChannelChangedEvent, ParticipantList(Where(participants, data.channel)))];

      assert Where(participants, newChannel) == Where(before[..i], newChannel) + [participants[i]] + Where(before[i + 1..], newChannel) by {
        WhereMovedInto(before, i, newChannel);
      }
      assert oldChannel != newChannel ==> Where(participants, oldChannel) == Where(Without(before, i), oldChannel) by {
        if oldChannel != newChannel {
          WhereMovedOut(before, i, newChannel);
        }
      }
      assert && Audience(rooms, newChannel) == Audience(roomsBefore, newChannel) + {socket}
             && (oldChannel != newChannel ==> Audience(rooms, oldChannel) == Audience(roomsBefore, oldChannel) - {socket}) by {
        MoveAudience(roomsBefore, socket, oldChannel, newChannel);
      }
      assert wasValid ==> Synced(participants, rooms) by {
        if wasValid {
          ChannelChangeKeepsSynced(before, roomsBefore, socket, newChannel);
        }
      }
      forall c | c != newChannel && c != oldChannel ensures Where(participants, c) == Where(before, c) {
        WhereMovedElsewhere(before, i, newChannel, c);
      }
      ok := true;
    }

    /**
     * disconnect: read the channel of socket's record, drop that record,
     * and tell the channel socket left. The rooms are the transport's to
     * clean up. With no record the handler throws before doing anything.
     */
    method Disconnect(socket: SocketId) returns (ok: bool)
      modifies this
      ensures ok == old(FindById(participants, socket)).Some?
      ensures !ok ==> participants == old(participants) && rooms == old(rooms) && outbox == old(outbox)
      ensures ok ==>
        var i := old(FindById(participants, socket)).value;
        && participants == Without(old(participants), i)
        && rooms == old(rooms)
        && outbox == old(outbox) + [Emit(old(participants)[i].channel, UserDisconnectedEvent, UserLeft(socket, SystemSender))]
      ensures old(Valid()) ==> Valid() && FindById(participants, socket).None?
    {
      var found := FindById(participants, socket);
      if found.None? {
        return false;
      }
      var i := found.value;
      var channel := participants[i].channel;
      if Valid() {
        DisconnectKeepsSynced(participants, rooms, socket);
      }
      participants := Without(participants, i);
      outbox := outbox + [Emit(channel, UserDisconnectedEvent, UserLeft(socket, SystemSender))];
      ok := true;
    }

    /** The `POST /message` route: it answers and may broadcast; the registry and rooms stay as they are. */
    method PostMessage(req: PostRequest) returns (resp: Response)
      modifies this`outbox
      ensures resp == HandlePost(req).response
      ensures outbox == old(outbox) + HandlePost(req).emits
    {
      var r := HandlePost(req);
      outbox := outbox + r.emits;
      resp := r.response;
    }
  }

  /**
   * Two users join "lobby" and one renames: what each broadcast carries
   * follows from the handlers' contracts alone.
   */
  method LobbyScenario()
  {
    var server := new ChatServer();
    var alice := Participant("A", "Alice", "lobby");
    var bob := Participant("B", "Bob", "lobby");
    server.NewUser("A", NewUserData("A", "Alice", "lobby"));
    assert FindById(server.participants, "B").None?;
    server.NewUser("B", NewUserData("B", "Bob", "lobby"));
    assert server.participants == [alice, bob];
    assert server.outbox[1] == Emit("lobby", NewConnectionEvent, ParticipantList([alice, bob]));

    var ok := server.NameChange("A", NameChangeData("A", "Alicia", "lobby"));
    assert ok && server.participants[0].name == "Alicia";
    assert server.outbox[2] == Emit("lobby", NameChangedEvent, NameChanged("A", "Alicia"));
  }

  /**
   * One user moves from "lobby" to "hallway", the other disconnects twice;
   * the second disconnect finds no record and changes nothing.
   */
  method HallwayScenario()
  {
    var server := new ChatServer();
    server.NewUser("A", NewUserData("A", "Alice", "lobby"));
    assert FindById(server.participants, "B").None?;
    server.NewUser("B", NewUserData("B", "Bob", "lobby"));

    var ok := server.ChannelChange("A", ChannelChangeData("hallway"));
    assert ok && server.participants[0] == Participant("A", "Alice", "hallway");
    assert server.outbox[2] == Emit("lobby", UserDisconnectedEvent, UserLeft("A", SystemSender));
    assert server.outbox[3].payload.participants == [Participant("A", "Alice", "hallway")];
    assert "A" !in Audience(server.rooms, "lobby");

    ok := server.Disconnect("B");
    assert ok && server.participants == [Participant("A", "Alice", "hallway")];
    assert server.outbox[4] == Emit("lobby", UserDisconnectedEvent, UserLeft("B", SystemSender));
    ok := server.Disconnect("B");
    assert !ok && |server.outbox| == 5;
  }
}
