/**
 * The per-socket session record (the fields the source attaches to an
 * `AuthenticatedWebSocket`) and the heartbeat step applied to it.
 */
module Connections {
  import opened Wrappers
  import opened Protocol
  import opened Identity

  /**
   * `open` is the transport's OPEN ready state; `closed` records that the close
   * handler has run for this socket.
   */
  datatype Conn = Conn(
    userId: UserId,
    boardId: Option<string>,
    workspaceId: Option<string>,
    isAlive: bool,
    open: bool,
    closed: bool)
  {
    /** The socket's current room of the given kind. */
    function Current(k: RoomKind): Option<string>
    {
      if k == BoardRoom then boardId else workspaceId
    }

    function WithCurrent(k: RoomKind, room: Option<string>): (c: Conn)
      ensures c.Current(k) == room
      ensures c.Current(if k == BoardRoom then WorkspaceRoom else BoardRoom)
           == Current(if k == BoardRoom then WorkspaceRoom else BoardRoom)
      ensures c.userId == userId && c.isAlive == isAlive && c.open == open && c.closed == closed
    {
      if k == BoardRoom then this.(boardId := room) else this.(workspaceId := room)
    }
  }

  /** Setting the current room twice keeps only the second setting (a proof step for `Sessions.MoveTwice`). */
  lemma WithCurrentTwice(c: Conn, k: RoomKind, a: Option<string>, b: Option<string>)
    ensures c.WithCurrent(k, a).WithCurrent(k, b) == c.WithCurrent(k, b)
  {
  }

  /** The record of a freshly authenticated socket. */
  function Fresh(user: UserId): Conn
  {
    Conn(user, None, None, true, true, false)
  }

  /**
   * One heartbeat tick on an open socket: a socket that has not answered the
   * previous probe is terminated, any other is marked unanswered (and pinged).
   */
  function Probe(c: Conn): Conn
  {
    if !c.isAlive then c.(open := false) else c.(isAlive := false)
  }

  /** The transport action of one tick on open socket `id`. */
  function ProbeAction(id: ConnId, c: Conn): Outgoing
  {
    if !c.isAlive then Terminate(id) else Ping(id)
  }

  /** A pong marks the socket as having answered. */
  function Pong(c: Conn): Conn
  {
    c.(isAlive := true)
  }

  /**
   * A socket that answers no probe is terminated by the second tick at the
   * latest: either the first tick terminates it or the second one does.
   */
  lemma SilentForTwoTicksTerminated(id: ConnId, c: Conn)
    requires c.open
    ensures !Probe(c).open || (ProbeAction(id, Probe(c)) == Terminate(id) && !Probe(Probe(c)).open)
    ensures ProbeAction(id, c) == Terminate(id) <==> !c.isAlive
  {
  }

  /** A socket that answers each probe before the next tick is never terminated. */
  lemma AnsweringSocketSurvives(id: ConnId, c: Conn)
    requires c.open
    ensures Probe(Pong(c)).open && ProbeAction(id, Pong(c)) == Ping(id)
    ensures Probe(Pong(Probe(Pong(c)))).open
  {
  }

  /** A tick changes only the liveness flag and the open state. */
  lemma ProbeKeepsSession(c: Conn)
    ensures Probe(c).userId == c.userId && Probe(c).boardId == c.boardId
    ensures Probe(c).workspaceId == c.workspaceId && Probe(c).closed == c.closed
  {
  }
}
