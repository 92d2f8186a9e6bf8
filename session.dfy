/**
 * The consistency of the manager's maps: the session records, the user index
 * and the two room indexes, and how each kind of event keeps them consistent.
 */
module Sessions {
  import opened Wrappers
  import opened Protocol
  import opened Connections
  import opened Rooms
  import opened Identity

  /**
   * A room index of kind `k` holds no empty room and only known sockets, and
   * a socket's current room of that kind is a non-empty id whose room
   * contains it. The converse is `RoomsExclusive`, which a leave naming
   * another room breaks: it clears the current room while the socket stays
   * in the room it was in.
   */
  ghost predicate RoomIndexValid(conns: map<ConnId, Conn>, rooms: Index, k: RoomKind)
  {
    && NoEmptyRooms(rooms)
    && (forall r, c | r in rooms && c in rooms[r] :: c in conns)
    && (forall c | c in conns && conns[c].Current(k).Some? ::
          PresentId(conns[c].Current(k)) && c in Members(rooms, conns[c].Current(k).value))
  }

  /**
   * The user index holds no empty set and files each socket under its own
   * user; every socket whose close handler has not run is filed. A socket
   * whose close handler ran is closed and in no current room, and stays
   * filed only under the empty user id, which the close handler skips.
   */
  ghost predicate ClientsValid(conns: map<ConnId, Conn>, clients: Index)
  {
    && NoEmptyRooms(clients)
    && (forall u, c | u in clients && c in clients[u] ::
          c in conns && conns[c].userId == u && (!conns[c].closed || u == ""))
    && (forall c | c in conns && !conns[c].closed :: c in Members(clients, conns[c].userId))
    && (forall c | c in conns && conns[c].closed ::
          !conns[c].open && conns[c].boardId.None? && conns[c].workspaceId.None?)
  }

  /** The whole manager state is consistent. */
  ghost predicate StateValid(conns: map<ConnId, Conn>, clients: Index, boards: Index, workspaces: Index)
  {
    && RoomIndexValid(conns, boards, BoardRoom)
    && RoomIndexValid(conns, workspaces, WorkspaceRoom)
    && ClientsValid(conns, clients)
  }

  /** The pair (board index, workspace index) with the index of kind `k` replaced by `rooms`. */
  function ReplaceRooms(k: RoomKind, boards: Index, workspaces: Index, rooms: Index): (r: (Index, Index))
    ensures k == BoardRoom ==> r == (rooms, workspaces)
    ensures k == WorkspaceRoom ==> r == (boards, rooms)
  {
    if k == BoardRoom then (rooms, workspaces) else (boards, rooms)
  }

  /**
   * The strict reading of a room index: every member of a room of kind `k`
   * has that room as its current room of that kind, so a socket is in at
   * most one room of each kind. Together with `RoomIndexValid` it makes room
   * membership and the current room the same thing
   * (`ExclusiveMembershipIsCurrent`). Every event keeps it except a leave
   * that names a room other than the current one.
   */
  ghost predicate RoomsExclusive(conns: map<ConnId, Conn>, rooms: Index, k: RoomKind)
  {
    forall r, c | r in rooms && c in rooms[r] :: c in conns && conns[c].Current(k) == Some(r)
  }

  /** Under the strict reading, a socket is in a room exactly when that room is its current one. */
  lemma ExclusiveMembershipIsCurrent(conns: map<ConnId, Conn>, rooms: Index, k: RoomKind, c: ConnId, r: string)
    requires RoomIndexValid(conns, rooms, k) && RoomsExclusive(conns, rooms, k)
    ensures c in Members(rooms, r) <==> c in conns && conns[c].Current(k) == Some(r)
    ensures c in Members(rooms, r) ==> forall r' | r' != r :: c !in Members(rooms, r')
  {
  }

  /** A change that keeps every socket and its current room of kind `k` keeps the strict reading. */
  lemma SameRoomsKeepExclusive(conns: map<ConnId, Conn>, conns': map<ConnId, Conn>, rooms: Index, k: RoomKind)
    requires RoomsExclusive(conns, rooms, k)
    requires conns.Keys <= conns'.Keys
    requires forall c | c in conns :: conns'[c].Current(k) == conns[c].Current(k)
    ensures RoomsExclusive(conns', rooms, k)
  {
  }

  /**
   * Leaving the current room of kind `k` keeps the strict reading of that
   * index; the other kind's index is unaffected.
   */
  lemma LeaveCurrentKeepsExclusive(conns: map<ConnId, Conn>, rooms: Index, other: Index, k: RoomKind, id: ConnId)
    requires RoomsExclusive(conns, rooms, k) && RoomsExclusive(conns, other, if k == BoardRoom then WorkspaceRoom else BoardRoom)
    requires id in conns && conns[id].Current(k).Some?
    ensures var after := conns[id := conns[id].WithCurrent(k, None)];
      && RoomsExclusive(after, Remove(rooms, conns[id].Current(k).value, id), k)
      && RoomsExclusive(after, other, if k == BoardRoom then WorkspaceRoom else BoardRoom)
  {
    var after := conns[id := conns[id].WithCurrent(k, None)];
    var rooms' := Remove(rooms, conns[id].Current(k).value, id);
    forall r, c | r in rooms' && c in rooms'[r]
      ensures c in after && after[c].Current(k) == Some(r)
    {
      assert c in Members(rooms', r);
      assert c in Members(rooms, r);
    }
    SameRoomsKeepExclusive(conns, after, other, if k == BoardRoom then WorkspaceRoom else BoardRoom);
  }

  /**
   * A join keeps the strict reading: the socket leaves its previous room of
   * kind `k` when that is another room, and enters the named one.
   */
  lemma JoinKeepsExclusive(conns: map<ConnId, Conn>, rooms: Index, other: Index, k: RoomKind, id: ConnId, room: string)
    requires RoomsExclusive(conns, rooms, k) && RoomsExclusive(conns, other, if k == BoardRoom then WorkspaceRoom else BoardRoom)
    requires id in conns
    ensures var prev := conns[id].Current(k);
      var after := conns[id := conns[id].WithCurrent(k, Some(room))];
      var rooms' := Add(if prev.Some? && prev.value != room then Remove(rooms, prev.value, id) else rooms, room, id);
      && RoomsExclusive(after, rooms', k)
      && RoomsExclusive(after, other, if k == BoardRoom then WorkspaceRoom else BoardRoom)
  {
    var prev := conns[id].Current(k);
    var after := conns[id := conns[id].WithCurrent(k, Some(room))];
    var mid := if prev.Some? && prev.value != room then Remove(rooms, prev.value, id) else rooms;
    var rooms' := Add(mid, room, id);
    forall r, c | r in rooms' && c in rooms'[r]
      ensures c in after && after[c].Current(k) == Some(r)
    {
      assert c in Members(rooms', r);
      if c != id || r != room {
        assert c in Members(mid, r);
        assert c in Members(rooms, r);
      }
    }
    SameRoomsKeepExclusive(conns, after, other, if k == BoardRoom then WorkspaceRoom else BoardRoom);
  }

  /**
   * Clearing one socket's current room of kind `k` and taking it out of that
   * room keeps the strict reading, whatever else changes in its own record.
   */
  lemma ClearKeepsExclusive(conns: map<ConnId, Conn>, conns': map<ConnId, Conn>, rooms: Index, k: RoomKind, id: ConnId)
    requires RoomsExclusive(conns, rooms, k) && id in conns
    requires conns'.Keys == conns.Keys && conns'[id].Current(k).None?
    requires forall c | c in conns && c != id :: conns'[c] == conns[c]
    ensures RoomsExclusive(conns', if conns[id].Current(k).Some? then Remove(rooms, conns[id].Current(k).value, id) else rooms, k)
  {
    var rooms' := if conns[id].Current(k).Some? then Remove(rooms, conns[id].Current(k).value, id) else rooms;
    forall r, c | r in rooms' && c in rooms'[r]
      ensures c in conns' && conns'[c].Current(k) == Some(r)
    {
      assert c in Members(rooms', r);
      assert c in Members(rooms, r);
    }
  }

  /** A fresh socket is in no room, so registering it keeps the strict reading. */
  lemma ConnectKeepsExclusive(conns: map<ConnId, Conn>, rooms: Index, k: RoomKind, id: ConnId, u: UserId)
    requires RoomsExclusive(conns, rooms, k) && id !in conns
    ensures RoomsExclusive(conns[id := Fresh(u)], rooms, k)
  {
    SameRoomsKeepExclusive(conns, conns[id := Fresh(u)], rooms, k);
  }

  /** A change that keeps every socket's current room of kind `k` keeps that index valid. */
  lemma SameRoomsKeepIndexValid(conns: map<ConnId, Conn>, conns': map<ConnId, Conn>, rooms: Index, k: RoomKind)
    requires RoomIndexValid(conns, rooms, k)
    requires conns'.Keys == conns.Keys
    requires forall c | c in conns :: conns'[c].Current(k) == conns[c].Current(k)
    ensures RoomIndexValid(conns', rooms, k)
  {
  }

  /**
   * A change that keeps every socket's user, close mark and current rooms, and
   * opens no socket, keeps the user index valid.
   */
  lemma SameSessionsKeepClientsValid(conns: map<ConnId, Conn>, conns': map<ConnId, Conn>, clients: Index)
    requires ClientsValid(conns, clients)
    requires conns'.Keys == conns.Keys
    requires forall c | c in conns ::
      && conns'[c].userId == conns[c].userId && conns'[c].closed == conns[c].closed
      && conns'[c].boardId == conns[c].boardId && conns'[c].workspaceId == conns[c].workspaceId
      && (conns'[c].open ==> conns[c].open)
    ensures ClientsValid(conns', clients)
  {
  }

  /** Registering a fresh socket under its user keeps the state valid. */
  lemma ConnectKeepsValid(conns: map<ConnId, Conn>, clients: Index, boards: Index, workspaces: Index, id: ConnId, u: UserId)
    requires StateValid(conns, clients, boards, workspaces) && id !in conns
    ensures StateValid(conns[id := Fresh(u)], Add(clients, u, id), boards, workspaces)
  {
    ConnectKeepsIndexValid(conns, boards, BoardRoom, id, u);
    ConnectKeepsIndexValid(conns, workspaces, WorkspaceRoom, id, u);
    ConnectKeepsClientsValid(conns, clients, id, u);
  }

  /** A fresh socket is in no room. */
  lemma ConnectKeepsIndexValid(conns: map<ConnId, Conn>, rooms: Index, k: RoomKind, id: ConnId, u: UserId)
    requires RoomIndexValid(conns, rooms, k) && id !in conns
    ensures RoomIndexValid(conns[id := Fresh(u)], rooms, k)
  {
  }

  /** Filing a fresh socket under its user keeps the user index valid. */
  lemma ConnectKeepsClientsValid(conns: map<ConnId, Conn>, clients: Index, id: ConnId, u: UserId)
    requires ClientsValid(conns, clients) && id !in conns
    ensures ClientsValid(conns[id := Fresh(u)], Add(clients, u, id))
  {
    AddKeepsNoEmptyRooms(clients, u, id);
  }

  /** A pong touches only the liveness flag. */
  lemma PongKeepsValid(conns: map<ConnId, Conn>, clients: Index, boards: Index, workspaces: Index, id: ConnId)
    requires StateValid(conns, clients, boards, workspaces) && id in conns
    ensures StateValid(conns[id := Pong(conns[id])], clients, boards, workspaces)
  {
    var after := conns[id := Pong(conns[id])];
    SameRoomsKeepIndexValid(conns, after, boards, BoardRoom);
    SameRoomsKeepIndexValid(conns, after, workspaces, WorkspaceRoom);
    SameSessionsKeepClientsValid(conns, after, clients);
  }

  /** A heartbeat tick changes no current room or user, and only closes open sockets. */
  lemma ProbedKeepsValid(conns: map<ConnId, Conn>, after: map<ConnId, Conn>, clients: Index, boards: Index, workspaces: Index)
    requires StateValid(conns, clients, boards, workspaces)
    requires after.Keys == conns.Keys
    requires forall c | c in after :: after[c] == if conns[c].open then Probe(conns[c]) else conns[c]
    ensures StateValid(after, clients, boards, workspaces)
  {
    forall c | c in conns
      ensures after[c].userId == conns[c].userId && after[c].closed == conns[c].closed
      ensures after[c].boardId == conns[c].boardId && after[c].workspaceId == conns[c].workspaceId
      ensures after[c].open ==> conns[c].open
    {
    }
    SameRoomsKeepIndexValid(conns, after, boards, BoardRoom);
    SameRoomsKeepIndexValid(conns, after, workspaces, WorkspaceRoom);
    SameSessionsKeepClientsValid(conns, after, clients);
  }

  /** Moving a socket between rooms of one kind leaves the other kind's index valid. */
  lemma MoveKeepsOtherIndexValid(conns: map<ConnId, Conn>, rooms: Index, k: RoomKind, k': RoomKind, id: ConnId, room: Option<string>)
    requires RoomIndexValid(conns, rooms, k') && k' != k && id in conns
    ensures RoomIndexValid(conns[id := conns[id].WithCurrent(k, room)], rooms, k')
  {
    SameRoomsKeepIndexValid(conns, conns[id := conns[id].WithCurrent(k, room)], rooms, k');
  }

  /** Leaving any room and clearing the current room keeps that kind's index valid. */
  lemma LeaveKeepsIndexValid(conns: map<ConnId, Conn>, rooms: Index, k: RoomKind, id: ConnId, room: string)
    requires RoomIndexValid(conns, rooms, k) && id in conns
    ensures RoomIndexValid(conns[id := conns[id].WithCurrent(k, None)], Remove(rooms, room, id), k)
  {
    RemoveKeepsNoEmptyRooms(rooms, room, id);
  }

  /** Joining a non-empty room id and making it current keeps that kind's index valid. */
  lemma JoinKeepsIndexValid(conns: map<ConnId, Conn>, rooms: Index, k: RoomKind, id: ConnId, room: string)
    requires RoomIndexValid(conns, rooms, k) && id in conns && room != ""
    ensures RoomIndexValid(conns[id := conns[id].WithCurrent(k, Some(room))], Add(rooms, room, id), k)
  {
    AddKeepsNoEmptyRooms(rooms, room, id);
  }

  /** Moving a live socket between rooms leaves the user index valid. */
  lemma MoveKeepsClientsValid(conns: map<ConnId, Conn>, clients: Index, k: RoomKind, id: ConnId, room: Option<string>)
    requires ClientsValid(conns, clients) && id in conns && !conns[id].closed
    ensures ClientsValid(conns[id := conns[id].WithCurrent(k, room)], clients)
  {
  }

  /**
   * Leaving any room of kind `k` and clearing the current room of that kind
   * keeps the state valid.
   */
  lemma LeaveKeepsValid(conns: map<ConnId, Conn>, clients: Index, boards: Index, workspaces: Index,
                        k: RoomKind, id: ConnId, room: string)
    requires StateValid(conns, clients, boards, workspaces) && id in conns && !conns[id].closed
    ensures var (b, w) := ReplaceRooms(k, boards, workspaces, Remove(if k == BoardRoom then boards else workspaces, room, id));
      StateValid(conns[id := conns[id].WithCurrent(k, None)], clients, b, w)
  {
    MoveKeepsClientsValid(conns, clients, k, id, None);
    if k == BoardRoom {
      LeaveKeepsIndexValid(conns, boards, k, id, room);
      MoveKeepsOtherIndexValid(conns, workspaces, k, WorkspaceRoom, id, None);
    } else {
      LeaveKeepsIndexValid(conns, workspaces, k, id, room);
      MoveKeepsOtherIndexValid(conns, boards, k, BoardRoom, id, None);
    }
  }

  /**
   * Joining a non-empty room id of kind `k` and making it current keeps the
   * state valid.
   */
  lemma JoinKeepsValid(conns: map<ConnId, Conn>, clients: Index, boards: Index, workspaces: Index,
                       k: RoomKind, id: ConnId, room: string)
    requires StateValid(conns, clients, boards, workspaces) && id in conns && !conns[id].closed && room != ""
    ensures var (b, w) := ReplaceRooms(k, boards, workspaces, Add(if k == BoardRoom then boards else workspaces, room, id));
      StateValid(conns[id := conns[id].WithCurrent(k, Some(room))], clients, b, w)
  {
    MoveKeepsClientsValid(conns, clients, k, id, Some(room));
    if k == BoardRoom {
      JoinKeepsIndexValid(conns, boards, k, id, room);
      MoveKeepsOtherIndexValid(conns, workspaces, k, WorkspaceRoom, id, Some(room));
    } else {
      JoinKeepsIndexValid(conns, workspaces, k, id, room);
      MoveKeepsOtherIndexValid(conns, boards, k, BoardRoom, id, Some(room));
    }
  }

  /** The transport closing before the close handler runs keeps the state valid. */
  lemma ShutKeepsValid(conns: map<ConnId, Conn>, clients: Index, boards: Index, workspaces: Index, id: ConnId)
    requires StateValid(conns, clients, boards, workspaces) && id in conns
    ensures StateValid(conns[id := conns[id].(open := false)], clients, boards, workspaces)
    ensures conns[id].closed ==> conns[id := conns[id].(open := false)] == conns
  {
    var shut := conns[id := conns[id].(open := false)];
    SameRoomsKeepIndexValid(conns, shut, boards, BoardRoom);
    SameRoomsKeepIndexValid(conns, shut, workspaces, WorkspaceRoom);
    SameSessionsKeepClientsValid(conns, shut, clients);
    if conns[id].closed {
      assert conns[id].(open := false) == conns[id];
    }
  }

  /**
   * The close handler's bookkeeping on a shut socket in no room: marking it
   * closed and dropping it from its user's set (unless the user id is empty)
   * keeps the state valid.
   */
  lemma ForgetKeepsValid(conns: map<ConnId, Conn>, clients: Index, boards: Index, workspaces: Index, id: ConnId)
    requires StateValid(conns, clients, boards, workspaces) && id in conns && !conns[id].open && !conns[id].closed
    requires conns[id].boardId.None? && conns[id].workspaceId.None?
    ensures var c := conns[id];
      StateValid(conns[id := c.(closed := true)],
                 if c.userId != "" then Remove(clients, c.userId, id) else clients, boards, workspaces)
  {
    var after := conns[id := conns[id].(closed := true)];
    SameRoomsKeepIndexValid(conns, after, boards, BoardRoom);
    SameRoomsKeepIndexValid(conns, after, workspaces, WorkspaceRoom);
    ForgetKeepsClientsValid(conns, clients, id);
  }

  /**
   * Unregistering is idempotent: once the close handler has run for a socket,
   * running its steps again (shutting the socket, leaving its current rooms,
   * unfiling it and marking it closed) would change nothing.
   */
  lemma SecondCloseChangesNothing(conns: map<ConnId, Conn>, clients: Index, id: ConnId)
    requires ClientsValid(conns, clients) && id in conns && conns[id].closed
    ensures conns[id].boardId.None? && conns[id].workspaceId.None?
    ensures conns[id].(open := false) == conns[id] && conns[id].(closed := true) == conns[id]
    ensures conns[id].userId != "" ==> Remove(clients, conns[id].userId, id) == clients
  {
    if conns[id].userId != "" {
      RemoveAbsent(clients, conns[id].userId, id);
    }
  }

  /** Marking a shut, roomless socket closed and unfiling it keeps the user index valid. */
  lemma ForgetKeepsClientsValid(conns: map<ConnId, Conn>, clients: Index, id: ConnId)
    requires ClientsValid(conns, clients) && id in conns && !conns[id].open && !conns[id].closed
    requires conns[id].boardId.None? && conns[id].workspaceId.None?
    ensures var c := conns[id];
      ClientsValid(conns[id := c.(closed := true)], if c.userId != "" then Remove(clients, c.userId, id) else clients)
  {
    RemoveKeepsNoEmptyRooms(clients, conns[id].userId, id);
  }

  /** Clearing then setting a socket's current room is the same as setting it (a proof step for the migrating join in `MoveRoom`). */
  lemma MoveTwice(conns: map<ConnId, Conn>, k: RoomKind, id: ConnId, a: Option<string>, b: Option<string>)
    requires id in conns
    ensures var mid := conns[id := conns[id].WithCurrent(k, a)];
      mid[id := mid[id].WithCurrent(k, b)] == conns[id := conns[id].WithCurrent(k, b)]
  {
    WithCurrentTwice(conns[id], k, a, b);
  }

  /** Clearing the current board and then the current workspace clears both (a proof step for `LeaveBoth`). */
  lemma ClearBoth(conns: map<ConnId, Conn>, id: ConnId)
    requires id in conns
    ensures var b := conns[id := conns[id].WithCurrent(BoardRoom, None)];
      b[id := b[id].WithCurrent(WorkspaceRoom, None)] == conns[id := conns[id].(boardId := None, workspaceId := None)]
  {
  }

  /** The record after the close handler: shut, in no room, and marked closed (a proof step for `HandleDisconnect`). */
  lemma CloseRecord(conns: map<ConnId, Conn>, id: ConnId)
    requires id in conns
    ensures var c := conns[id];
      var shut := conns[id := c.(open := false)];
      var cleared := shut[id := shut[id].(boardId := None, workspaceId := None)];
      cleared[id := cleared[id].(closed := true)]
        == conns[id := c.(open := false, boardId := None, workspaceId := None, closed := true)]
  {
  }

  /** Clearing a current room that is already clear changes nothing (a proof step for `LeaveCurrent`). */
  lemma UnchangedCurrent(conns: map<ConnId, Conn>, k: RoomKind, id: ConnId)
    requires id in conns && conns[id].Current(k).None?
    ensures conns[id := conns[id].WithCurrent(k, None)] == conns
  {
    assert conns[id].WithCurrent(k, None) == conns[id];
  }
}
