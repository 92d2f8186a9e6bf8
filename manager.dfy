/**
 * The real-time room engine (src/websocket/WebSocketManager.ts): one object
 * that keeps the user index and the two room indexes, authenticates
 * handshakes, routes inbound frames, moves sockets between rooms, fans
 * events out and runs the heartbeat. Every transport action is appended to
 * `outbox` instead of being performed.
 */
module Realtime {
  import opened Wrappers
  import opened Protocol
  import opened Connections
  import opened Rooms
  import opened Broadcast
  import opened Sessions
  import opened Identity

  /** `after` is `before` with more actions appended. */
  predicate Extends(before: seq<Outgoing>, after: seq<Outgoing>)
  {
    |before| <= |after| && after[..|before|] == before
  }

  /** `s` delivers `env` to `targets` when `when` holds, and is empty otherwise. */
  ghost predicate Notify(s: seq<Outgoing>, env: Envelope, targets: set<ConnId>, when: bool)
  {
    if when then Delivers(s, env, targets) else s == []
  }

  /** `s` is the notice of the first announcement followed by that of the second. */
  ghost predicate Sequenced(s: seq<Outgoing>, env1: Envelope, t1: set<ConnId>, when1: bool,
                            env2: Envelope, t2: set<ConnId>, when2: bool)
  {
    exists n | 0 <= n <= |s| :: Notify(s[..n], env1, t1, when1) && Notify(s[n..], env2, t2, when2)
  }

  /** The sockets the heartbeat visits: those whose transport is still open. */
  function OpenSockets(conns: map<ConnId, Conn>): set<ConnId>
  {
    set c | c in conns && conns[c].open
  }

  /** `s` is one probe action per open socket of `conns`, and nothing else. */
  ghost predicate ProbesAll(s: seq<Outgoing>, conns: map<ConnId, Conn>)
  {
    ProbedSoFar(s, OpenSockets(conns), conns)
  }

  /**
   * Two announcements made one after the other: the actions appended in the
   * two steps are the first notice followed by the second.
   */
  lemma InTurn(start: seq<Outgoing>, mid: seq<Outgoing>, end: seq<Outgoing>,
               env1: Envelope, t1: set<ConnId>, when1: bool, env2: Envelope, t2: set<ConnId>, when2: bool)
    requires Extends(start, mid) && Extends(mid, end)
    requires Notify(mid[|start|..], env1, t1, when1) && Notify(end[|mid|..], env2, t2, when2)
    ensures Extends(start, end)
    ensures Sequenced(end[|start|..], env1, t1, when1, env2, t2, when2)
  {
    var s := end[|start|..];
    var n := |mid| - |start|;
    assert s[..n] == mid[|start|..];
    assert s[n..] == end[|mid|..];
  }

  /**
   * Joining one room changes neither the members of another room nor who a
   * broadcast to it reaches. A proof step for `MoveRoom`: the offline notice
   * sent to the old room is unaffected by the join that follows it.
   */
  lemma JoinElsewhereKeepsAudience(conns: map<ConnId, Conn>, rooms: Index, k: RoomKind, id: ConnId,
                                   room: string, other: string, exclude: Option<UserId>)
    requires id in conns && room != other
    ensures Recipients(conns[id := conns[id].WithCurrent(k, Some(room))], Members(Add(rooms, room, id), other), exclude)
         == Recipients(conns, Members(rooms, other), exclude)
  {
    RecipientsIgnoreSessionFields(conns, conns[id := conns[id].WithCurrent(k, Some(room))], Members(rooms, other), exclude);
  }

  /**
   * The session change a dispatched frame makes: only the sender's record
   * changes, and only its current room of the event's kind. A join makes a
   * non-empty named room current; a leave clears the current room when both
   * the named and the current room are non-empty; a board event changes
   * nothing.
   */
  ghost predicate Dispatched(before: map<ConnId, Conn>, after: map<ConnId, Conn>, id: ConnId, f: Frame)
    requires id in before && RouterError(Some(f)).None?
  {
    var e := Route(f.kind).value;
    var k := KindOf(e);
    var c := before[id];
    var moved :=
      if e in {BoardJoin, WorkspaceJoin} then
        (if PresentId(RoomId(f.payload.value, k)) then c.WithCurrent(k, RoomId(f.payload.value, k)) else c)
      else if e in {BoardLeave, WorkspaceLeave} then
        (if PresentId(LeaveTarget(f.payload, k, c.Current(k))) && PresentId(c.Current(k)) then c.WithCurrent(k, None) else c)
      else c;
    after == before[id := moved]
  }

  /**
   * The manager's fields at one moment. Each event handler's outcome is a
   * relation between the fields before and after it (`ConnectionHandled`, `Ponged`,
   * `Ticked`, `Left`, `Joined`, `BoardEventHandled`, `Disconnected`, and
   * `Routed` for the router), so that the router can promise exactly what
   * the handler it calls does.
   */
  datatype World = World(conns: map<ConnId, Conn>, clients: Index, boards: Index, workspaces: Index, outbox: seq<Outgoing>)
  {
    /** The room index of a kind. */
    function Rooms(k: RoomKind): Index
    {
      if k == BoardRoom then boards else workspaces
    }

    ghost predicate Valid()
    {
      StateValid(conns, clients, boards, workspaces)
    }

    /** Both room indexes under their strict reading (`Sessions.RoomsExclusive`). */
    ghost predicate Exclusive()
    {
      RoomsExclusive(conns, boards, BoardRoom) && RoomsExclusive(conns, workspaces, WorkspaceRoom)
    }
  }

  /**
   * `handleConnection`: a refused handshake closes the socket with 1008 and
   * changes no index; an accepted one registers the socket as fresh and alive
   * under its user (creating the user's set on first use) and confirms.
   */
  ghost predicate ConnectionHandled(w: World, w': World, id: ConnId, token: Option<string>, verify: string -> Option<UserId>, now: int)
  {
    var h := Authenticate(token, verify);
    && w'.boards == w.boards && w'.workspaces == w.workspaces
    && (h.Rejected? ==>
          && w'.conns == w.conns && w'.clients == w.clients
          && w'.outbox == w.outbox + [Close(id, PolicyViolation, h.reason)])
    && (h.Accepted? ==>
          && w'.conns == w.conns[id := Fresh(h.user)]
          && w'.clients == Add(w.clients, h.user, id)
          && w'.outbox == w.outbox + [Send(id, Envelope(Connect, Connected(h.user, "Connected successfully"), now))])
  }

  /** The `pong` listener: the socket is marked alive and nothing else changes. */
  ghost predicate Ponged(w: World, w': World, id: ConnId)
    requires id in w.conns
  {
    w' == w.(conns := w.conns[id := Pong(w.conns[id])])
  }

  /**
   * One heartbeat tick: every open socket is probed once (terminated when it
   * did not answer the last probe, otherwise marked unanswered and pinged);
   * no index changes.
   */
  ghost predicate Ticked(w: World, w': World)
  {
    && w'.clients == w.clients && w'.boards == w.boards && w'.workspaces == w.workspaces
    && w'.conns.Keys == w.conns.Keys
    && (forall c | c in w'.conns :: w'.conns[c] == if w.conns[c].open then Probe(w.conns[c]) else w.conns[c])
    && Extends(w.outbox, w'.outbox)
    && ProbesAll(w'.outbox[|w.outbox|..], w.conns)
  }

  /**
   * `handleBoardLeave` / `handleWorkspaceLeave`: the room named by the
   * payload (the current room when there is no payload) is left only when
   * both it and the current room are non-empty ids. Then the socket leaves
   * the named room (deleted once empty), its current room is cleared, and the
   * room's other users are told it went offline. Otherwise nothing changes.
   */
  ghost predicate Left(w: World, w': World, k: RoomKind, id: ConnId, payload: Option<Payload>, now: int)
    requires id in w.conns
  {
    var c := w.conns[id];
    var named := LeaveTarget(payload, k, c.Current(k));
    if PresentId(named) && PresentId(c.Current(k)) then
      && w'.conns == w.conns[id := c.WithCurrent(k, None)]
      && w'.clients == w.clients
      && w'.Rooms(k) == Remove(w.Rooms(k), named.value, id) && w'.Rooms(Other(k)) == w.Rooms(Other(k))
      && Extends(w.outbox, w'.outbox)
      && Delivers(w'.outbox[|w.outbox|..], PresenceEnvelope(c.userId, Offline, k, named.value, now),
                  Recipients(w'.conns, Members(w'.Rooms(k), named.value), Some(c.userId)))
    else
      w' == w
  }

  /**
   * `handleBoardJoin` / `handleWorkspaceJoin`: a payload without a non-empty
   * room id is answered with an error and changes nothing else. Otherwise a
   * socket whose current room of that kind is another one first leaves it
   * (that room is told), then the named room becomes current and gains the
   * socket, and the room's other users are told it is online.
   */
  ghost predicate Joined(w: World, w': World, k: RoomKind, id: ConnId, p: Payload, now: int)
    requires id in w.conns
  {
    var c := w.conns[id];
    if !PresentId(RoomId(p, k)) then
      w' == w.(outbox := w.outbox + if c.open then [Send(id, ErrorEnvelope(IdRequired(k), now))] else [])
    else
      var room := RoomId(p, k).value;
      var prev := c.Current(k);
      var moving := prev.Some? && prev.value != room;
      var left := prev.GetOr(room);
      && w'.conns == w.conns[id := c.WithCurrent(k, Some(room))]
      && w'.clients == w.clients
      && w'.Rooms(k) == Add(if moving then Remove(w.Rooms(k), left, id) else w.Rooms(k), room, id)
      && w'.Rooms(Other(k)) == w.Rooms(Other(k))
      && id in Members(w'.Rooms(k), room)
      && (moving ==> id !in Members(w'.Rooms(k), left))
      && Extends(w.outbox, w'.outbox)
      && Sequenced(w'.outbox[|w.outbox|..],
           PresenceEnvelope(c.userId, Offline, k, left, now), Recipients(w'.conns, Members(w'.Rooms(k), left), Some(c.userId)), moving,
           PresenceEnvelope(c.userId, Online, k, room, now), Recipients(w'.conns, Members(w'.Rooms(k), room), Some(c.userId)), true)
  }

  /**
   * `handleBoardUpdate`, `handleCursorUpdate` and `handleUserTyping`: a
   * refused event is answered with its error; an accepted one goes to the
   * board's other users. Only the outbox changes.
   */
  ghost predicate BoardEventHandled(w: World, w': World, kind: EventType, id: ConnId, p: Payload, now: int)
    requires id in w.conns && kind in {BoardUpdate, BoardCursor, UserTyping}
  {
    var c := w.conns[id];
    var v := BoardEventVerdict(kind, p, c.boardId, c.userId, now);
    && w'.conns == w.conns && w'.clients == w.clients && w'.boards == w.boards && w'.workspaces == w.workspaces
    && (v.Refuse? ==> w'.outbox == w.outbox + if c.open then [Send(id, ErrorEnvelope(v.error, now))] else [])
    && (v.Accept? ==>
          && Extends(w.outbox, w'.outbox)
          && Delivers(w'.outbox[|w.outbox|..], v.env, Recipients(w.conns, Members(w.boards, v.room), Some(c.userId))))
  }

  /**
   * `handleDisconnect`: the socket, already shut, leaves its current board
   * and then its current workspace (telling each room in that order), is
   * dropped from its user's set unless its user id is empty, and is marked
   * as handled.
   */
  ghost predicate Disconnected(w: World, w': World, id: ConnId, now: int)
    requires id in w.conns
  {
    var c := w.conns[id];
    var board := c.boardId.GetOr("");
    var workspace := c.workspaceId.GetOr("");
    && w'.conns == w.conns[id := c.(open := false, boardId := None, workspaceId := None, closed := true)]
    && w'.clients == (if c.userId != "" then Remove(w.clients, c.userId, id) else w.clients)
    && w'.boards == (if c.boardId.Some? then Remove(w.boards, board, id) else w.boards)
    && w'.workspaces == (if c.workspaceId.Some? then Remove(w.workspaces, workspace, id) else w.workspaces)
    && Extends(w.outbox, w'.outbox)
    && Sequenced(w'.outbox[|w.outbox|..],
         PresenceEnvelope(c.userId, Offline, BoardRoom, board, now),
         Recipients(w'.conns, Members(w'.boards, board), Some(c.userId)), c.boardId.Some?,
         PresenceEnvelope(c.userId, Offline, WorkspaceRoom, workspace, now),
         Recipients(w'.conns, Members(w'.workspaces, workspace), Some(c.userId)), c.workspaceId.Some?)
  }

  /**
   * The router's switch on a frame it can dispatch: the outcome is exactly
   * that of the handler of the frame's tag.
   */
  ghost predicate Routed(w: World, w': World, id: ConnId, f: Frame, now: int)
    requires id in w.conns && RouterError(Some(f)).None?
  {
    var e := Route(f.kind).value;
    if e in {BoardJoin, WorkspaceJoin} then Joined(w, w', KindOf(e), id, f.payload.value, now)
    else if e in {BoardLeave, WorkspaceLeave} then Left(w, w', KindOf(e), id, f.payload, now)
    else BoardEventHandled(w, w', e, id, f.payload.value, now)
  }

  /**
   * What any dispatched frame does to the session records: only the sender's
   * record changes, and only its current room of the event's kind. A join
   * naming a room puts the sender in it, board events change no room index,
   * and the user index never changes.
   */
  lemma RoutedMovesOnlySender(w: World, w': World, id: ConnId, f: Frame, now: int)
    requires id in w.conns && RouterError(Some(f)).None?
    requires Routed(w, w', id, f, now)
    ensures Dispatched(w.conns, w'.conns, id, f)
    ensures w'.clients == w.clients && Extends(w.outbox, w'.outbox)
    ensures var e := Route(f.kind).value;
      e in {BoardJoin, WorkspaceJoin} && PresentId(RoomId(f.payload.value, KindOf(e))) ==>
        id in Members(w'.Rooms(KindOf(e)), RoomId(f.payload.value, KindOf(e)).value)
    ensures Route(f.kind).value in {BoardUpdate, BoardCursor, UserTyping} ==>
      w'.boards == w.boards && w'.workspaces == w.workspaces
  {
  }

  /** A handshake keeps the strict reading of the room indexes: a new socket is in no room. */
  lemma ConnectionKeepsExclusive(w: World, w': World, id: ConnId, token: Option<string>, verify: string -> Option<UserId>, now: int)
    requires w.Exclusive() && id !in w.conns
    requires ConnectionHandled(w, w', id, token, verify, now)
    ensures w'.Exclusive()
  {
    var h := Authenticate(token, verify);
    if h.Accepted? {
      ConnectKeepsExclusive(w.conns, w.boards, BoardRoom, id, h.user);
      ConnectKeepsExclusive(w.conns, w.workspaces, WorkspaceRoom, id, h.user);
    }
  }

  /** A pong keeps the strict reading. */
  lemma PongedKeepsExclusive(w: World, w': World, id: ConnId)
    requires w.Exclusive() && id in w.conns && Ponged(w, w', id)
    ensures w'.Exclusive()
  {
    SameRoomsKeepExclusive(w.conns, w'.conns, w.boards, BoardRoom);
    SameRoomsKeepExclusive(w.conns, w'.conns, w.workspaces, WorkspaceRoom);
  }

  /** A heartbeat tick keeps the strict reading. */
  lemma TickedKeepsExclusive(w: World, w': World)
    requires w.Exclusive() && Ticked(w, w')
    ensures w'.Exclusive()
  {
    forall c | c in w.conns
      ensures w'.conns[c].boardId == w.conns[c].boardId && w'.conns[c].workspaceId == w.conns[c].workspaceId
    {
    }
    SameRoomsKeepExclusive(w.conns, w'.conns, w.boards, BoardRoom);
    SameRoomsKeepExclusive(w.conns, w'.conns, w.workspaces, WorkspaceRoom);
  }

  /** A join keeps the strict reading: the socket ends in the named room and in no other of that kind. */
  lemma JoinedKeepsExclusive(w: World, w': World, k: RoomKind, id: ConnId, p: Payload, now: int)
    requires w.Exclusive() && id in w.conns && Joined(w, w', k, id, p, now)
    ensures w'.Exclusive()
  {
    if PresentId(RoomId(p, k)) {
      JoinKeepsExclusive(w.conns, w.Rooms(k), w.Rooms(Other(k)), k, id, RoomId(p, k).value);
    }
  }

  /**
   * A leave keeps the strict reading unless it names a room other than the
   * current one (`LeaveElsewhereStrandsSocket` shows that case).
   */
  lemma LeftKeepsExclusive(w: World, w': World, k: RoomKind, id: ConnId, payload: Option<Payload>, now: int)
    requires w.Exclusive() && id in w.conns && Left(w, w', k, id, payload, now)
    requires var cur := w.conns[id].Current(k);
      PresentId(LeaveTarget(payload, k, cur)) && PresentId(cur) ==> LeaveTarget(payload, k, cur) == cur
    ensures w'.Exclusive()
  {
    var cur := w.conns[id].Current(k);
    if PresentId(LeaveTarget(payload, k, cur)) && PresentId(cur) {
      LeaveCurrentKeepsExclusive(w.conns, w.Rooms(k), w.Rooms(Other(k)), k, id);
    }
  }

  /** The close handler keeps the strict reading: the socket leaves the only rooms it is in. */
  lemma DisconnectedKeepsExclusive(w: World, w': World, id: ConnId, now: int)
    requires w.Exclusive() && id in w.conns && Disconnected(w, w', id, now)
    ensures w'.Exclusive()
  {
    ClearKeepsExclusive(w.conns, w'.conns, w.boards, BoardRoom, id);
    ClearKeepsExclusive(w.conns, w'.conns, w.workspaces, WorkspaceRoom, id);
  }

  /**
   * Every dispatched frame keeps the strict reading, except a leave naming a
   * room other than the current one.
   */
  lemma RoutedKeepsExclusive(w: World, w': World, id: ConnId, f: Frame, now: int)
    requires w.Exclusive() && id in w.conns && RouterError(Some(f)).None?
    requires Routed(w, w', id, f, now)
    requires var e := Route(f.kind).value;
      var cur := w.conns[id].Current(KindOf(e));
      e in {BoardLeave, WorkspaceLeave} && PresentId(LeaveTarget(f.payload, KindOf(e), cur)) && PresentId(cur) ==>
        LeaveTarget(f.payload, KindOf(e), cur) == cur
    ensures w'.Exclusive()
  {
    var e := Route(f.kind).value;
    if e in {BoardJoin, WorkspaceJoin} {
      JoinedKeepsExclusive(w, w', KindOf(e), id, f.payload.value, now);
    } else if e in {BoardLeave, WorkspaceLeave} {
      LeftKeepsExclusive(w, w', KindOf(e), id, f.payload, now);
    }
  }

  /**
   * The code as written: a leave naming a room other than the current one
   * clears the current room but leaves the socket in the room it is in, so
   * the strict reading of the index is lost.
   */
  lemma LeaveElsewhereStrandsSocket(w: World, w': World, k: RoomKind, id: ConnId, payload: Option<Payload>, now: int)
    requires w.Valid() && id in w.conns && Left(w, w', k, id, payload, now)
    requires var cur := w.conns[id].Current(k);
      PresentId(LeaveTarget(payload, k, cur)) && PresentId(cur) && LeaveTarget(payload, k, cur) != cur
    ensures var cur := w.conns[id].Current(k).value;
      id in Members(w'.Rooms(k), cur) && w'.conns[id].Current(k).None? && !w'.Exclusive()
  {
    var cur := w.conns[id].Current(k).value;
    var named := LeaveTarget(payload, k, w.conns[id].Current(k)).value;
    assert id in Members(w.Rooms(k), cur);
    RemoveOtherRoomKeepsMembership(w.Rooms(k), cur, named, id);
    assert cur in w'.Rooms(k) && id in w'.Rooms(k)[cur];
  }

  /**
   * A socket stranded by such a leave is still a member of that room after
   * its close handler has run: it is closed but never pruned, since the
   * close handler leaves only the current rooms.
   */
  lemma StrandedSocketOutlivesClose(w0: World, w1: World, w2: World, k: RoomKind, id: ConnId,
                                    payload: Option<Payload>, now: int, later: int)
    requires w0.Valid() && id in w0.conns && Left(w0, w1, k, id, payload, now)
    requires var cur := w0.conns[id].Current(k);
      PresentId(LeaveTarget(payload, k, cur)) && PresentId(cur) && LeaveTarget(payload, k, cur) != cur
    requires id in w1.conns && Disconnected(w1, w2, id, later)
    ensures var cur := w0.conns[id].Current(k).value;
      id in Members(w2.Rooms(k), cur) && w2.conns[id].closed && !w2.conns[id].open
  {
    LeaveElsewhereStrandsSocket(w0, w1, k, id, payload, now);
  }

  /** The other room kind. */
  function Other(k: RoomKind): RoomKind
  {
    if k == BoardRoom then WorkspaceRoom else BoardRoom
  }

  /** The room kind a join or leave event acts on. */
  function KindOf(e: EventType): RoomKind
  {
    if e in {BoardJoin, BoardLeave} then BoardRoom else WorkspaceRoom
  }

  /** The room id a payload names for a room kind (`boardId` or `workspaceId`). */
  function RoomId(p: Payload, k: RoomKind): Option<string>
  {
    if k == BoardRoom then p.boardId else p.workspaceId
  }

  /** `message.payload || { boardId: ws.boardId }`: the room a leave names. */
  function LeaveTarget(payload: Option<Payload>, k: RoomKind, current: Option<string>): Option<string>
  {
    if payload.None? then current else RoomId(payload.value, k)
  }

  /** The outcome of a handshake. */
  datatype Handshake = Accepted(user: UserId) | Rejected(reason: string)

  /**
   * The authentication gate: a missing or empty token and a token the
   * verifier rejects are refused with their own reasons; otherwise the
   * verified user is bound to the socket.
   */
  function Authenticate(token: Option<string>, verify: string -> Option<UserId>): (h: Handshake)
    ensures h.Accepted? <==> PresentId(token) && verify(token.value).Some?
    ensures h.Accepted? ==> h.user == verify(token.value).value
    ensures !PresentId(token) ==> h == Rejected("Authentication required")
    ensures PresentId(token) && verify(token.value).None? ==> h == Rejected("Authentication failed")
  {
    if !PresentId(token) then Rejected("Authentication required")
    else match verify(token.value)
      case None => Rejected("Authentication failed")
      case Some(u) => Accepted(u)
  }

  /** The acceptance of a board-scoped event, or the error it is answered with. */
  datatype Verdict = Refuse(error: string) | Accept(room: string, env: Envelope)

  /**
   * Validation of `board:update`, `board:cursor` and `user:typing`: required
   * fields first, then the named board must be the socket's current board.
   * An accepted event is rebroadcast with the sender's verified identity.
   */
  function BoardEventVerdict(kind: EventType, p: Payload, current: Option<string>, user: UserId, now: int): (v: Verdict)
    requires kind in {BoardUpdate, BoardCursor, UserTyping}
    ensures v.Accept? ==> PresentId(p.boardId) && current == Some(v.room) && p.boardId == Some(v.room)
    ensures v.Accept? ==> v.env.kind == kind && v.env.timestamp == now
    ensures kind == BoardUpdate ==>
      (v.Accept? <==> PresentId(p.boardId) && p.content.Some? && Truthy(p.content.value) && current == p.boardId)
    ensures kind == BoardUpdate && v.Accept? ==> v.env.body == Update(v.room, p.content.value, user, now)
    ensures kind == BoardCursor ==>
      (v.Accept? <==> PresentId(p.boardId) && p.x.Some? && p.y.Some? && current == p.boardId)
    ensures kind == BoardCursor && v.Accept? ==> v.env.body == Cursor(v.room, user, p.userName, p.x.value, p.y.value, now)
    ensures kind == UserTyping ==> (v.Accept? <==> PresentId(p.boardId) && current == p.boardId)
    ensures kind == UserTyping && v.Accept? ==> v.env.body == Typing(user, v.room, AsBoolean(p.isTyping))
    // Missing fields are reported before a board mismatch.
    ensures kind == BoardUpdate && !(PresentId(p.boardId) && p.content.Some? && Truthy(p.content.value)) ==>
      v == Refuse(UpdateFieldsRequired)
    ensures kind == BoardCursor && !(PresentId(p.boardId) && p.x.Some? && p.y.Some?) ==> v == Refuse(CursorFieldsRequired)
    ensures kind == UserTyping && !PresentId(p.boardId) ==> v == Refuse(IdRequired(BoardRoom))
    ensures kind == BoardUpdate && PresentId(p.boardId) && p.content.Some? && Truthy(p.content.value) && current != p.boardId ==>
      v == Refuse(NotOnBoard)
    ensures kind == BoardCursor && PresentId(p.boardId) && p.x.Some? && p.y.Some? && current != p.boardId ==> v == Refuse(NotOnBoard)
    ensures kind == UserTyping && PresentId(p.boardId) && current != p.boardId ==> v == Refuse(NotOnBoard)
  {
    match kind
    case BoardUpdate =>
      if !PresentId(p.boardId) || p.content.None? || !Truthy(p.content.value) then Refuse(UpdateFieldsRequired)
      else if current != p.boardId then Refuse(NotOnBoard)
      else Accept(p.boardId.value, Envelope(BoardUpdate, Update(p.boardId.value, p.content.value, user, now), now))
    case BoardCursor =>
      if !PresentId(p.boardId) || p.x.None? || p.y.None? then Refuse(CursorFieldsRequired)
      else if current != p.boardId then Refuse(NotOnBoard)
      else Accept(p.boardId.value, Envelope(BoardCursor, Cursor(p.boardId.value, user, p.userName, p.x.value, p.y.value, now), now))
    case UserTyping =>
      if !PresentId(p.boardId) then Refuse(IdRequired(BoardRoom))
      else if current != p.boardId then Refuse(NotOnBoard)
      else Accept(p.boardId.value, Envelope(UserTyping, Typing(user, p.boardId.value, AsBoolean(p.isTyping)), now))
  }

  /**
   * The error the router itself answers a frame with, before any handler
   * runs: a frame that did not parse, a tag with no handler, or a missing
   * payload that the handler would fail to destructure (the leave handlers
   * fall back to the current room instead).
   */
  function RouterError(parsed: Option<Frame>): (e: Option<string>)
    ensures parsed.None? ==> e == Some(InvalidFormat)
    ensures parsed.Some? && Route(parsed.value.kind).None? ==> e == Some(UnknownType(parsed.value.kind))
    ensures parsed.Some? && Route(parsed.value.kind).Some? ==>
      (e.Some? <==> parsed.value.payload.None? && Route(parsed.value.kind).value !in {BoardLeave, WorkspaceLeave})
    ensures e.Some? && parsed.Some? && Route(parsed.value.kind).Some? ==> e == Some(InvalidFormat)
  {
    match parsed
    case None => Some(InvalidFormat)
    case Some(f) =>
      match Route(f.kind)
      case None => Some(UnknownType(f.kind))
      case Some(e) =>
        if f.payload.None? && e != BoardLeave && e != WorkspaceLeave then Some(InvalidFormat) else None
  }

  /** Marking a socket closed changes no socket's open state or user (a proof step for `HandleDisconnect`, whose notices go out after the mark). */
  lemma ClosingKeepsAudience(conns: map<ConnId, Conn>, id: ConnId)
    requires id in conns
    ensures var after := conns[id := conns[id].(closed := true)];
      && after.Keys == conns.Keys
      && forall c | c in conns :: after[c].open == conns[c].open && after[c].userId == conns[c].userId
  {
  }

  /**
   * Two announcements reach the same sockets under any state that agrees on
   * which sockets are open and whose they are.
   */
  lemma SequencedSameAudience(s: seq<Outgoing>, conns: map<ConnId, Conn>, conns': map<ConnId, Conn>,
                              env1: Envelope, m1: set<ConnId>, when1: bool,
                              env2: Envelope, m2: set<ConnId>, when2: bool, exclude: Option<UserId>)
    requires conns.Keys == conns'.Keys
    requires forall c | c in conns :: conns'[c].open == conns[c].open && conns'[c].userId == conns[c].userId
    requires Sequenced(s, env1, Recipients(conns, m1, exclude), when1, env2, Recipients(conns, m2, exclude), when2)
    ensures Sequenced(s, env1, Recipients(conns', m1, exclude), when1, env2, Recipients(conns', m2, exclude), when2)
  {
    RecipientsIgnoreSessionFields(conns, conns', m1, exclude);
    RecipientsIgnoreSessionFields(conns, conns', m2, exclude);
  }

  class WebSocketManager {
    /** Every socket that completed a handshake, with its session fields. */
    var conns: map<ConnId, Conn>
    /** `clients`: user id to that user's sockets. */
    var clients: Index
    /** `boardClients`: board id to the sockets in that board room. */
    var boardClients: Index
    /** `workspaceClients`: workspace id to the sockets in that workspace room. */
    var workspaceClients: Index
    /** Transport actions performed so far, in order. */
    var outbox: seq<Outgoing>

    /** The manager's fields as one value. */
    function State(): World
      reads this
    {
      World(conns, clients, boardClients, workspaceClients, outbox)
    }

    /** The room index of a kind. */
    function Rooms(k: RoomKind): Index
      reads this
    {
      State().Rooms(k)
    }

    ghost predicate Valid()
      reads this
    {
      StateValid(conns, clients, boardClients, workspaceClients)
    }

    constructor ()
      ensures Valid()
      ensures conns == map[] && clients == map[] && outbox == []
      ensures boardClients == map[] && workspaceClients == map[]
    {
      conns, clients, outbox := map[], map[], [];
      boardClients, workspaceClients := map[], map[];
    }

    /** `sendToClient`: a frame reaches the socket only while it is open. */
    method SendToClient(id: ConnId, env: Envelope)
      requires id in conns
      modifies this`outbox
      ensures outbox == old(outbox) + if conns[id].open then [Send(id, env)] else []
    {
      if conns[id].open {
        outbox := outbox + [Send(id, env)];
      }
    }

    /** `sendError`: an `error` envelope naming the problem. */
    method SendError(id: ConnId, error: string, now: int)
      requires id in conns
      modifies this`outbox
      ensures outbox == old(outbox) + if conns[id].open then [Send(id, ErrorEnvelope(error, now))] else []
    {
      SendToClient(id, ErrorEnvelope(error, now));
    }

    /**
     * `broadcastToBoard` / `broadcastToWorkspace`: the envelope goes once to
     * every open member of the room whose user is not the excluded one.
     */
    method BroadcastTo(k: RoomKind, room: string, env: Envelope, exclude: Option<UserId>)
      modifies this`outbox
      ensures Extends(old(outbox), outbox)
      ensures Delivers(outbox[|old(outbox)|..], env, Recipients(conns, Members(Rooms(k), room), exclude))
    {
      var sent := FanOut(conns, Members(Rooms(k), room), env, exclude);
      outbox := outbox + sent;
      assert outbox[|old(outbox)|..] == sent;
    }

    /** `broadcastBoardUpdate`: a service-originated update reaches every open member, sender included. */
    method BroadcastBoardUpdate(boardId: string, update: Body, now: int)
      requires update.Update?
      modifies this`outbox
      ensures Extends(old(outbox), outbox)
      ensures Delivers(outbox[|old(outbox)|..], Envelope(BoardUpdate, update, now),
                       Recipients(conns, Members(boardClients, boardId), None))
    {
      BroadcastTo(BoardRoom, boardId, Envelope(BoardUpdate, update, now), None);
    }

    /** `handleConnection`, with the outcome `ConnectionHandled`. */
    method HandleConnection(id: ConnId, token: Option<string>, verify: string -> Option<UserId>, now: int)
      requires Valid() && id !in conns
      modifies this`conns, this`clients, this`outbox
      ensures Valid()
      ensures ConnectionHandled(old(State()), State(), id, token, verify, now)
    {
      var h := Authenticate(token, verify);
      if h.Rejected? {
        outbox := outbox + [Close(id, PolicyViolation, h.reason)];
        return;
      }
      var u := h.user;
      ConnectKeepsValid(conns, clients, boardClients, workspaceClients, id, u);
      conns := conns[id := Fresh(u)];
      clients := Add(clients, u, id);
      SendToClient(id, Envelope(Connect, Connected(u, "Connected successfully"), now));
    }

    /** The `pong` listener, with the outcome `Ponged`. */
    method HandlePong(id: ConnId)
      requires Valid() && id in conns
      modifies this`conns
      ensures Valid()
      ensures Ponged(old(State()), State(), id)
    {
      PongKeepsValid(conns, clients, boardClients, workspaceClients, id);
      conns := conns[id := Pong(conns[id])];
    }

    /** One heartbeat tick, with the outcome `Ticked`; indexes are left to the close handler. */
    method Tick()
      requires Valid()
      modifies this`conns, this`outbox
      ensures Valid()
      ensures Ticked(old(State()), State())
    {
      var sent := ProbeAll(conns);
      var after := map c | c in conns :: if conns[c].open then Probe(conns[c]) else conns[c];
      ProbedKeepsValid(conns, after, clients, boardClients, workspaceClients);
      conns := after;
      outbox := outbox + sent;
      assert outbox[|old(outbox)|..] == sent;
    }

    /**
     * The body of `handleBoardLeave` / `handleWorkspaceLeave` once its guard
     * has passed: the socket is taken out of the named room (the room is
     * dropped once empty), its current room is cleared, and the room's other
     * users are told it went offline.
     */
    method LeaveRoom(k: RoomKind, id: ConnId, room: string, now: int)
      requires Valid() && id in conns && !conns[id].closed
      modifies this`conns, this`boardClients, this`workspaceClients, this`outbox
      ensures Valid()
      ensures conns == old(conns)[id := old(conns)[id].WithCurrent(k, None)]
      ensures Rooms(k) == Remove(old(Rooms(k)), room, id) && Rooms(Other(k)) == old(Rooms(Other(k)))
      ensures Extends(old(outbox), outbox)
      ensures Delivers(outbox[|old(outbox)|..], PresenceEnvelope(old(conns)[id].userId, Offline, k, room, now),
                       Recipients(conns, Members(Rooms(k), room), Some(old(conns)[id].userId)))
    {
      var c := conns[id];
      Vacate(k, id, room);
      BroadcastTo(k, room, PresenceEnvelope(c.userId, Offline, k, room, now), Some(c.userId));
    }

    /** The bookkeeping half of a leave: the socket is out of `room` and has no current room of kind `k`. */
    method Vacate(k: RoomKind, id: ConnId, room: string)
      requires Valid() && id in conns && !conns[id].closed
      modifies this`conns, this`boardClients, this`workspaceClients
      ensures Valid()
      ensures conns == old(conns)[id := old(conns)[id].WithCurrent(k, None)]
      ensures Rooms(k) == Remove(old(Rooms(k)), room, id) && Rooms(Other(k)) == old(Rooms(Other(k)))
    {
      LeaveKeepsValid(conns, clients, boardClients, workspaceClients, k, id, room);
      if k == BoardRoom {
        boardClients := Remove(boardClients, room, id);
      } else {
        workspaceClients := Remove(workspaceClients, room, id);
      }
      conns := conns[id := conns[id].WithCurrent(k, None)];
    }

    /** `handleBoardLeave` / `handleWorkspaceLeave`, with the outcome `Left`. */
    method HandleLeave(k: RoomKind, id: ConnId, payload: Option<Payload>, now: int)
      requires Valid() && id in conns && !conns[id].closed
      modifies this`conns, this`boardClients, this`workspaceClients, this`outbox
      ensures Valid()
      ensures Left(old(State()), State(), k, id, payload, now)
    {
      var named := LeaveTarget(payload, k, conns[id].Current(k));
      if !PresentId(named) || !PresentId(conns[id].Current(k)) {
        return;
      }
      LeaveRoom(k, id, named.value, now);
    }

    /** `handleBoardJoin` / `handleWorkspaceJoin`, with the outcome `Joined`. */
    method HandleJoin(k: RoomKind, id: ConnId, p: Payload, now: int)
      requires Valid() && id in conns && !conns[id].closed
      modifies this`conns, this`boardClients, this`workspaceClients, this`outbox
      ensures Valid()
      ensures Joined(old(State()), State(), k, id, p, now)
    {
      var named := RoomId(p, k);
      if !PresentId(named) {
        SendError(id, IdRequired(k), now);
        return;
      }
      var room := named.value;
      var prev := conns[id].Current(k);
      var u := conns[id].userId;
      if prev.Some? && prev.value != room {
        MoveRoom(k, id, prev.value, room, now);
      } else {
        ghost var start := outbox;
        JoinRoom(k, id, room, now);
        InTurn(start, start, outbox,
          PresenceEnvelope(u, Offline, k, room, now), Recipients(conns, Members(Rooms(k), room), Some(u)), false,
          PresenceEnvelope(u, Online, k, room, now), Recipients(conns, Members(Rooms(k), room), Some(u)), true);
      }
    }

    /**
     * A join that switches rooms: the previous room is left (and told so)
     * before the new one is joined (and told so).
     */
    method MoveRoom(k: RoomKind, id: ConnId, left: string, room: string, now: int)
      requires Valid() && id in conns && !conns[id].closed
      requires room != "" && left != room
      modifies this`conns, this`boardClients, this`workspaceClients, this`outbox
      ensures Valid()
      ensures conns == old(conns)[id := old(conns)[id].WithCurrent(k, Some(room))]
      ensures Rooms(k) == Add(Remove(old(Rooms(k)), left, id), room, id)
      ensures Rooms(Other(k)) == old(Rooms(Other(k)))
      ensures Extends(old(outbox), outbox)
      ensures Sequenced(outbox[|old(outbox)|..],
        PresenceEnvelope(old(conns)[id].userId, Offline, k, left, now), Recipients(conns, Members(Rooms(k), left), Some(old(conns)[id].userId)), true,
        PresenceEnvelope(old(conns)[id].userId, Online, k, room, now), Recipients(conns, Members(Rooms(k), room), Some(old(conns)[id].userId)), true)
    {
      var u := conns[id].userId;
      ghost var start := outbox;
      ghost var before := conns;
      LeaveRoom(k, id, left, now);
      ghost var midOutbox := outbox;
      ghost var midConns := conns;
      ghost var midRooms := Rooms(k);
      JoinRoom(k, id, room, now);
      MoveTwice(before, k, id, None, Some(room));
      JoinElsewhereKeepsAudience(midConns, midRooms, k, id, room, left, Some(u));
      InTurn(start, midOutbox, outbox,
        PresenceEnvelope(u, Offline, k, left, now), Recipients(conns, Members(Rooms(k), left), Some(u)), true,
        PresenceEnvelope(u, Online, k, room, now), Recipients(conns, Members(Rooms(k), room), Some(u)), true);
    }

    /**
     * The body of a join once the room id has passed its check: the room
     * becomes current, the socket is added to it and the room's other users
     * are told it is online.
     */
    method JoinRoom(k: RoomKind, id: ConnId, room: string, now: int)
      requires Valid() && id in conns && !conns[id].closed && room != ""
      modifies this`conns, this`boardClients, this`workspaceClients, this`outbox
      ensures Valid()
      ensures conns == old(conns)[id := old(conns)[id].WithCurrent(k, Some(room))]
      ensures Rooms(k) == Add(old(Rooms(k)), room, id) && Rooms(Other(k)) == old(Rooms(Other(k)))
      ensures Extends(old(outbox), outbox)
      ensures Delivers(outbox[|old(outbox)|..], PresenceEnvelope(old(conns)[id].userId, Online, k, room, now),
                       Recipients(conns, Members(Rooms(k), room), Some(old(conns)[id].userId)))
    {
      var c := conns[id];
      Occupy(k, id, room);
      BroadcastTo(k, room, PresenceEnvelope(c.userId, Online, k, room, now), Some(c.userId));
    }

    /** The bookkeeping half of a join: the socket is in `room`, which is its current room of kind `k`. */
    method Occupy(k: RoomKind, id: ConnId, room: string)
      requires Valid() && id in conns && !conns[id].closed && room != ""
      modifies this`conns, this`boardClients, this`workspaceClients
      ensures Valid()
      ensures conns == old(conns)[id := old(conns)[id].WithCurrent(k, Some(room))]
      ensures Rooms(k) == Add(old(Rooms(k)), room, id) && Rooms(Other(k)) == old(Rooms(Other(k)))
    {
      JoinKeepsValid(conns, clients, boardClients, workspaceClients, k, id, room);
      if k == BoardRoom {
        boardClients := Add(boardClients, room, id);
      } else {
        workspaceClients := Add(workspaceClients, room, id);
      }
      conns := conns[id := conns[id].WithCurrent(k, Some(room))];
    }

    /**
     * `handleDisconnect`, run by the socket's `close` event once the transport
     * is closed, with the outcome `Disconnected`. The user index is updated after the rooms here
     * rather than before; neither leave reads it, so the outcome is the same.
     * The close event fires once per socket, hence `!closed`; a second run
     * would change nothing (`Sessions.SecondCloseChangesNothing`).
     */
    method HandleDisconnect(id: ConnId, now: int)
      requires Valid() && id in conns && !conns[id].closed
      modifies this`conns, this`clients, this`boardClients, this`workspaceClients, this`outbox
      ensures Valid()
      ensures Disconnected(old(State()), State(), id, now)
    {
      var c := conns[id];
      ShutKeepsValid(conns, clients, boardClients, workspaceClients, id);
      conns := conns[id := c.(open := false)];
      LeaveBoth(id, now);
      ghost var left := conns;
      Forget(id);
      CloseRecord(old(conns), id);
      ClosingKeepsAudience(left, id);
      SequencedSameAudience(outbox[|old(outbox)|..], left, conns,
        PresenceEnvelope(c.userId, Offline, BoardRoom, c.boardId.GetOr(""), now),
        Members(boardClients, c.boardId.GetOr("")), c.boardId.Some?,
        PresenceEnvelope(c.userId, Offline, WorkspaceRoom, c.workspaceId.GetOr(""), now),
        Members(workspaceClients, c.workspaceId.GetOr("")), c.workspaceId.Some?, Some(c.userId));
    }

    /**
     * The bookkeeping that ends the close handler, on a shut socket already in
     * no room: the socket leaves its user's set unless its user id is empty,
     * and is marked as handled.
     */
    method Forget(id: ConnId)
      requires Valid() && id in conns && !conns[id].open && !conns[id].closed
      requires conns[id].boardId.None? && conns[id].workspaceId.None?
      modifies this`conns, this`clients
      ensures Valid()
      ensures conns == old(conns)[id := old(conns)[id].(closed := true)]
      ensures clients == if old(conns)[id].userId != "" then Remove(old(clients), old(conns)[id].userId, id) else old(clients)
    {
      var c := conns[id];
      ForgetKeepsValid(conns, clients, boardClients, workspaceClients, id);
      if c.userId != "" {
        clients := Remove(clients, c.userId, id);
      }
      conns := conns[id := c.(closed := true)];
    }

    /**
     * The two leaves of the close handler: the current board if any, then the
     * current workspace if any.
     */
    method LeaveBoth(id: ConnId, now: int)
      requires Valid() && id in conns
      modifies this`conns, this`boardClients, this`workspaceClients, this`outbox
      ensures Valid()
      ensures var c := old(conns)[id];
        var board := c.boardId.GetOr("");
        var workspace := c.workspaceId.GetOr("");
        && conns == old(conns)[id := c.(boardId := None, workspaceId := None)]
        && boardClients == (if c.boardId.Some? then Remove(old(boardClients), board, id) else old(boardClients))
        && workspaceClients == (if c.workspaceId.Some? then Remove(old(workspaceClients), workspace, id) else old(workspaceClients))
        && Extends(old(outbox), outbox)
        && Sequenced(outbox[|old(outbox)|..],
             PresenceEnvelope(c.userId, Offline, BoardRoom, board, now),
             Recipients(conns, Members(boardClients, board), Some(c.userId)), c.boardId.Some?,
             PresenceEnvelope(c.userId, Offline, WorkspaceRoom, workspace, now),
             Recipients(conns, Members(workspaceClients, workspace), Some(c.userId)), c.workspaceId.Some?)
    {
      var c := conns[id];
      var board := c.boardId.GetOr("");
      var workspace := c.workspaceId.GetOr("");
      ghost var start := outbox;
      LeaveCurrent(BoardRoom, id, now);
      ghost var mid := outbox;
      ghost var midConns := conns;
      LeaveCurrent(WorkspaceRoom, id, now);
      ClearBoth(old(conns), id);
      RecipientsIgnoreSessionFields(midConns, conns, Members(boardClients, board), Some(c.userId));
      InTurn(start, mid, outbox,
        PresenceEnvelope(c.userId, Offline, BoardRoom, board, now),
        Recipients(conns, Members(boardClients, board), Some(c.userId)), c.boardId.Some?,
        PresenceEnvelope(c.userId, Offline, WorkspaceRoom, workspace, now),
        Recipients(conns, Members(workspaceClients, workspace), Some(c.userId)), c.workspaceId.Some?);
    }

    /**
     * The leave the manager issues itself, naming the socket's current room
     * (`{ boardId: ws.boardId }`): with a current room the socket leaves it
     * and the room is told; without one nothing happens.
     */
    method LeaveCurrent(k: RoomKind, id: ConnId, now: int)
      requires Valid() && id in conns
      modifies this`conns, this`boardClients, this`workspaceClients, this`outbox
      ensures Valid()
      ensures var c := old(conns)[id];
        var room := c.Current(k).GetOr("");
        && conns == old(conns)[id := c.WithCurrent(k, None)]
        && Rooms(k) == (if c.Current(k).Some? then Remove(old(Rooms(k)), room, id) else old(Rooms(k)))
        && Rooms(Other(k)) == old(Rooms(Other(k)))
        && Extends(old(outbox), outbox)
        && Notify(outbox[|old(outbox)|..], PresenceEnvelope(c.userId, Offline, k, room, now),
                  Recipients(conns, Members(Rooms(k), room), Some(c.userId)), c.Current(k).Some?)
    {
      var current := conns[id].Current(k);
      if PresentId(current) {
        LeaveRoom(k, id, current.value, now);
      } else {
        UnchangedCurrent(conns, k, id);
        assert outbox[|old(outbox)|..] == [];
      }
    }

    /**
     * `handleMessage`: a frame the router cannot dispatch is answered with a
     * single error and changes nothing else. Otherwise the frame is stamped
     * with the socket's user and the server time and handed to the handler of
     * its tag, with that handler's outcome (`Routed`).
     */
    method HandleMessage(id: ConnId, parsed: Option<Frame>, now: int)
      requires Valid() && id in conns && !conns[id].closed
      modifies this`conns, this`boardClients, this`workspaceClients, this`outbox
      ensures Valid()
      ensures RouterError(parsed).Some? ==>
        State() == old(State()).(outbox := old(outbox) + if conns[id].open then [Send(id, ErrorEnvelope(RouterError(parsed).value, now))] else [])
      ensures RouterError(parsed).None? ==> Routed(old(State()), State(), id, Stamp(parsed.value, old(conns)[id].userId, now), now)
    {
      var error := RouterError(parsed);
      if error.Some? {
        SendError(id, error.value, now);
        return;
      }
      var f := Stamp(parsed.value, conns[id].userId, now);
      Dispatch(id, f, now);
    }

    /**
     * The router's switch on a frame it can dispatch: the handler of its tag
     * runs, and the outcome is exactly that handler's (`Routed`).
     */
    method Dispatch(id: ConnId, f: Frame, now: int)
      requires Valid() && id in conns && !conns[id].closed
      requires RouterError(Some(f)).None?
      modifies this`conns, this`boardClients, this`workspaceClients, this`outbox
      ensures Valid()
      ensures Routed(old(State()), State(), id, f, now)
    {
      var e := Route(f.kind).value;
      if e == BoardJoin || e == WorkspaceJoin {
        HandleJoin(KindOf(e), id, f.payload.value, now);
      } else if e == BoardLeave || e == WorkspaceLeave {
        HandleLeave(KindOf(e), id, f.payload, now);
      } else {
        HandleBoardEvent(e, id, f.payload.value, now);
      }
    }

    /** `handleBoardUpdate`, `handleCursorUpdate` and `handleUserTyping`, with the outcome `BoardEventHandled`. */
    method HandleBoardEvent(kind: EventType, id: ConnId, p: Payload, now: int)
      requires kind in {BoardUpdate, BoardCursor, UserTyping}
      requires id in conns
      modifies this`outbox
      ensures BoardEventHandled(old(State()), State(), kind, id, p, now)
    {
      var v := BoardEventVerdict(kind, p, conns[id].boardId, conns[id].userId, now);
      if v.Refuse? {
        SendError(id, v.error, now);
      } else {
        BroadcastTo(BoardRoom, v.room, v.env, Some(conns[id].userId));
      }
    }
  }

  /**
   * The heartbeat's walk over the open sockets: each is probed once, in
   * whatever order the set yields them, and its probe action recorded.
   */
  method ProbeAll(before: map<ConnId, Conn>) returns (sent: seq<Outgoing>)
    ensures ProbesAll(sent, before)
  {
    ghost var visit := OpenSockets(before);
    ghost var done: set<ConnId> := {};
    sent := [];
    var todo := OpenSockets(before);
    while todo != {}
      invariant todo <= visit
      invariant done + todo == visit && done !! todo
      invariant ProbedSoFar(sent, done, before)
      decreases todo
    {
      var c :| c in todo;
      ProbeOneMore(sent, done, before, c);
      sent := sent + [ProbeAction(c, before[c])];
      done := done + {c};
      todo := todo - {c};
    }
    assert done == visit;
  }

  /** `sent` holds one probe action for each socket of `done`, and nothing else. */
  ghost predicate ProbedSoFar(sent: seq<Outgoing>, done: set<ConnId>, before: map<ConnId, Conn>)
  {
    && (forall c | c in done :: c in before)
    && (forall i | 0 <= i < |sent| :: sent[i].to in done && sent[i] == ProbeAction(sent[i].to, before[sent[i].to]))
    && (forall c | c in done :: ProbeAction(c, before[c]) in sent)
    && |sent| == |done|
  }

  /** Probing one more open socket, not probed before, extends the walk. */
  lemma ProbeOneMore(sent: seq<Outgoing>, done: set<ConnId>, before: map<ConnId, Conn>, c: ConnId)
    requires ProbedSoFar(sent, done, before) && c in before && c !in done
    ensures ProbedSoFar(sent + [ProbeAction(c, before[c])], done + {c}, before)
  {
    assert |done + {c}| == |done| + 1;
  }
}
