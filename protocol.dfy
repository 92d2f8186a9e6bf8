/**
 * The envelope protocol of the real-time channel (src/websocket/types.ts):
 * event tags, the inbound frame as parsed from JSON, the outbound envelope,
 * and the transport actions the manager performs on a socket.
 */
module Protocol {
  import opened Wrappers
  import opened Identity

  /** Identity of one transport socket. */
  type ConnId = nat

  datatype EventType =
    | Connect | Disconnect | Error
    | BoardJoin | BoardLeave | BoardUpdate | BoardCursor
    | WorkspaceJoin | WorkspaceLeave | WorkspaceUpdate
    | UserTyping | UserPresence

  /** The wire name of each event tag. */
  function Tag(e: EventType): string
  {
    match e
    case Connect => "connect"
    case Disconnect => "disconnect"
    case Error => "error"
    case BoardJoin => "board:join"
    case BoardLeave => "board:leave"
    case BoardUpdate => "board:update"
    case BoardCursor => "board:cursor"
    case WorkspaceJoin => "workspace:join"
    case WorkspaceLeave => "workspace:leave"
    case WorkspaceUpdate => "workspace:update"
    case UserTyping => "user:typing"
    case UserPresence => "user:presence"
  }

  /** The tags the message router has a handler for. */
  const Handled: set<EventType> :=
    {BoardJoin, BoardLeave, BoardUpdate, BoardCursor, WorkspaceJoin, WorkspaceLeave, UserTyping}

  /**
   * The router's switch: the handled event whose wire name is `kind`, if any.
   * Every other string (including "connect", "workspace:update" and
   * "user:presence") has no handler.
   */
  function Route(kind: string): (r: Option<EventType>)
    ensures r.Some? ==> r.value in Handled && Tag(r.value) == kind
    ensures r.None? ==> forall e | e in Handled :: Tag(e) != kind
  {
    if kind == "board:join" then Some(BoardJoin)
    else if kind == "board:leave" then Some(BoardLeave)
    else if kind == "board:update" then Some(BoardUpdate)
    else if kind == "board:cursor" then Some(BoardCursor)
    else if kind == "workspace:join" then Some(WorkspaceJoin)
    else if kind == "workspace:leave" then Some(WorkspaceLeave)
    else if kind == "user:typing" then Some(UserTyping)
    else None
  }

  /** Routing a handled tag's own wire name finds that tag. */
  lemma RouteFindsHandled(e: EventType)
    requires e in Handled
    ensures Route(Tag(e)) == Some(e)
  {
  }

  /** The tags with no handler, by name. */
  lemma UnhandledTags()
    ensures Route(Tag(Connect)).None? && Route(Tag(Disconnect)).None? && Route(Tag(Error)).None?
    ensures Route(Tag(WorkspaceUpdate)).None? && Route(Tag(UserPresence)).None?
  {
  }

  /** A JSON value as far as the handlers look at it; numbers are reals, objects and arrays are kept as their text. */
  datatype Value = Null | Bool(b: bool) | Num(n: real) | Str(s: string) | Structured(text: string)

  /** JavaScript truthiness of a value. */
  predicate Truthy(v: Value)
  {
    match v
    case Null => false
    case Bool(b) => b
    case Num(n) => n != 0.0
    case Str(s) => s != ""
    case Structured(_) => true
  }

  /** `Boolean(x)` of a payload field that may be undefined. */
  predicate AsBoolean(v: Option<Value>)
  {
    v.Some? && Truthy(v.value)
  }

  /** A room id that passes a `!id` test: present and not the empty string. */
  predicate PresentId(id: Option<string>)
  {
    id.Some? && id.value != ""
  }

  /** The fields an inbound payload object may carry; `None` is an absent field. */
  datatype Payload = Payload(
    boardId: Option<string>,
    workspaceId: Option<string>,
    content: Option<Value>,
    x: Option<Value>,
    y: Option<Value>,
    userName: Option<Value>,
    isTyping: Option<Value>)

  /** A parsed inbound message; a `None` payload is a null or missing payload. */
  datatype Frame = Frame(kind: string, payload: Option<Payload>, timestamp: int, userId: Option<UserId>)

  /**
   * Before dispatch, the sender identity and timestamp of an inbound frame are
   * replaced by the socket's verified user and the server clock.
   */
  function Stamp(f: Frame, user: UserId, now: int): (g: Frame)
    ensures g.userId == Some(user) && g.timestamp == now
    ensures g.kind == f.kind && g.payload == f.payload
  {
    f.(userId := Some(user), timestamp := now)
  }

  /** Whatever identity or time the client wrote into a frame, the stamped frame is the same. */
  lemma StampIgnoresClientClaims(f: Frame, claimed: Option<UserId>, sent: int, user: UserId, now: int)
    ensures Stamp(f.(userId := claimed, timestamp := sent), user, now) == Stamp(f, user, now)
  {
  }

  datatype Status = Online | Offline

  /** The two independent kinds of room. */
  datatype RoomKind = BoardRoom | WorkspaceRoom

  /** Outbound payloads, one variant per message the manager builds. */
  datatype Body =
    | Connected(user: UserId, message: string)
    | Failure(error: string)
    | Presence(user: UserId, status: Status, kind: RoomKind, room: string)
    | Update(boardId: string, content: Value, author: UserId, at: int)
    | Cursor(boardId: string, author: UserId, userName: Option<Value>, x: Value, y: Value, at: int)
    | Typing(author: UserId, boardId: string, isTyping: bool)

  datatype Envelope = Envelope(kind: EventType, body: Body, timestamp: int)

  /** What the manager does to a socket: send a frame, ping, terminate, or close with a code. */
  datatype Outgoing =
    | Send(to: ConnId, msg: Envelope)
    | Ping(to: ConnId)
    | Terminate(to: ConnId)
    | Close(to: ConnId, code: int, reason: string)

  /** The policy-violation close code used for failed handshakes. */
  const PolicyViolation: int := 1008

  function ErrorEnvelope(error: string, now: int): Envelope
  {
    Envelope(Error, Failure(error), now)
  }

  function PresenceEnvelope(user: UserId, status: Status, kind: RoomKind, room: string, now: int): Envelope
  {
    Envelope(UserPresence, Presence(user, status, kind, room), now)
  }

  const InvalidFormat := "Invalid message format"

  function UnknownType(kind: string): string
  {
    "Unknown event type: " + kind
  }

  function IdRequired(k: RoomKind): string
  {
    if k == BoardRoom then "Board ID required" else "Workspace ID required"
  }

  const UpdateFieldsRequired := "Board ID and content required"
  const CursorFieldsRequired := "Board ID, x, and y coordinates required"
  const NotOnBoard := "You are not connected to this board"
}
