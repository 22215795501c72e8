/**
 * What the server sends: the Socket.IO events it emits into a channel
 * (`io.sockets.in(channel).emit(event, payload)`), and the decision taken
 * by the `POST /message` route.
 */
module Messages {
  import opened Wrappers
  import opened Participants

  const NewConnectionEvent := "newConnection"
  const NameChangedEvent := "nameChanged"
  const ChannelChangedEvent := "channelChanged"
  const UserDisconnectedEvent := "userDisconnected"
  const IncomingMessageEvent := "incomingMessage"

  /** The sender the server puts on the userDisconnected events it makes itself. */
  const SystemSender := "system"

  /** The payload objects the server emits. */
  datatype Payload =
    | ParticipantList(participants: seq<Participant>)  // {participants: [...]}
    | NameChanged(id: SocketId, name: string)          // {id, name}
    | UserLeft(id: SocketId, sender: string)           // {id, sender}
    | Incoming(message: string, name: string)          // {message, name}

  /** One broadcast: event and payload sent to every socket in channel. */
  datatype Emit = Emit(channel: Channel, event: string, payload: Payload)

  /**
   * The characters `String.prototype.trim` strips, listed one by one:
   * ECMAScript WhiteSpace (tab, vertical tab, form feed, space, no-break
   * space, byte order mark and the Unicode space separators) and
   * LineTerminator (line feed, carriage return, line and paragraph separator).
   */
  const TrimmedChars: set<char> := {
    '\t', '\n', '\U{B}', '\U{C}', '\r', ' ', '\U{A0}', '\U{1680}',
    '\U{2000}', '\U{2001}', '\U{2002}', '\U{2003}', '\U{2004}', '\U{2005}',
    '\U{2006}', '\U{2007}', '\U{2008}', '\U{2009}', '\U{200A}',
    '\U{2028}', '\U{2029}', '\U{202F}', '\U{205F}', '\U{3000}', '\U{FEFF}'
  }

  /** The whitespace test `trim` applies to each end of a string. */
  predicate IsWhitespace(ch: char)
  {
    || ch == '\t' || ch == '\n' || ch == '\U{B}' || ch == '\U{C}' || ch == '\r'
    || ch == ' ' || ch == '\U{A0}' || ch == '\U{1680}'
    || ('\U{2000}' <= ch <= '\U{200A}')
    || ch == '\U{2028}' || ch == '\U{2029}' || ch == '\U{202F}' || ch == '\U{205F}'
    || ch == '\U{3000}' || ch == '\U{FEFF}'
  }

  /**
   * The range-based test accepts exactly the listed characters.
   * `TrimmedChars` exists only as this reviewable list; the model uses
   * `IsWhitespace`.
   */
  lemma WhitespaceIsTrimmedChars(ch: char)
    ensures IsWhitespace(ch) <==> ch in TrimmedChars
  {
  }

  /** Every character of s is whitespace (the empty string included). */
  predicate Blank(s: string)
  {
    forall k :: 0 <= k < |s| ==> IsWhitespace(s[k])
  }

  /** s without its leading whitespace. */
  function TrimStart(s: string): (r: string)
    ensures |r| <= |s| && r == s[|s| - |r|..]
    ensures forall k :: 0 <= k < |s| - |r| ==> IsWhitespace(s[k])
    ensures r == [] || !IsWhitespace(r[0])
  {
    if s != [] && IsWhitespace(s[0]) then TrimStart(s[1..]) else s
  }

  /** s without its trailing whitespace. */
  function TrimEnd(s: string): (r: string)
    ensures |r| <= |s| && r == s[..|r|]
    ensures forall k :: |r| <= k < |s| ==> IsWhitespace(s[k])
    ensures r == [] || !IsWhitespace(r[|r| - 1])
  {
    if s != [] && IsWhitespace(s[|s| - 1]) then TrimEnd(s[..|s| - 1]) else s
  }

  /**
   * `s.trim()`: no whitespace is left at either end, and nothing is left
   * exactly when s is made only of whitespace (`_.isEmpty(s.trim())`).
   */
  function Trim(s: string): (r: string)
    ensures |r| <= |s|
    ensures r != [] ==> !IsWhitespace(r[0]) && !IsWhitespace(r[|r| - 1])
    ensures r == [] <==> Blank(s)
  {
    var t := TrimStart(s);
    var r := TrimEnd(t);
    assert r != [] ==> r[0] == t[0];
    r
  }

  /**
   * Trimming cuts only whitespace and only from the ends: the result is the
   * slice of s after its leading whitespace, followed by whitespace alone.
   */
  lemma TrimSlice(s: string)
    ensures
      var i := |s| - |TrimStart(s)|;
      var r := Trim(s);
      && i + |r| <= |s|
      && r == s[i..i + |r|]
      && (forall k :: 0 <= k < i ==> IsWhitespace(s[k]))
      && (forall k :: i + |r| <= k < |s| ==> IsWhitespace(s[k]))
  {
    var t := TrimStart(s);
    var i := |s| - |t|;
    var r := TrimEnd(t);
    assert t == s[i..];
    assert r == t[..|r|];
    assert s[i..][..|r|] == s[i..i + |r|];
    forall k | i + |r| <= k < |s| ensures IsWhitespace(s[k]) {
      assert s[k] == t[k - i];
    }
  }

  /** The body of a `POST /message` request; message is absent when not sent. */
  datatype PostRequest = PostRequest(message: Option<string>, name: string, channel: Channel)

  datatype ResponseBody = ErrorBody(error: string) | AckBody(message: string)

  /** `response.json(status, body)`. */
  datatype Response = Response(status: nat, body: ResponseBody)

  /** The response of the route and the broadcasts it makes. */
  datatype PostOutcome = PostOutcome(response: Response, emits: seq<Emit>)

  /**
   * The `POST /message` route: a missing or blank message is a 400 with no
   * broadcast; anything else is broadcast, once, as incomingMessage to the
   * channel named in the body, and acknowledged with a 200.
   */
  function HandlePost(req: PostRequest): (r: PostOutcome)
    ensures r.response.status == 400 || r.response.status == 200
    ensures r.response.status == 400 <==> req.message.None? || Blank(req.message.value)
    ensures r.response.status == 400 ==>
      r.emits == [] && r.response.body == ErrorBody("Message is invalid")
    ensures r.response.status == 200 ==>
      && req.message.Some?
      && r.response.body == AckBody("Message received")
      && r.emits == [Emit(req.channel, IncomingMessageEvent, Incoming(req.message.value, req.name))]
  {
    if req.message.None? then
      PostOutcome(Response(400, ErrorBody("Message is invalid")), [])
    else
      if Trim(req.message.value) == [] then
        PostOutcome(Response(400, ErrorBody("Message is invalid")), [])
      else
        PostOutcome(Response(200, AckBody("Message received")),
                    [Emit(req.channel, IncomingMessageEvent, Incoming(req.message.value, req.name))])
  }
}
