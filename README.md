# Collaborative workspace backend: real-time rooms and workspace permissions in Dafny

This project models the core of a collaborative-workspace backend written in
TypeScript, and proves properties of that model. The core has three parts.

- **The real-time room engine** (`WebSocketManager`) authenticates each socket
  at handshake and files it under its user. It routes inbound JSON frames,
  and moves sockets in and out of board rooms and workspace rooms. It fans
  presence, update, cursor and typing events out to a room's other users, and
  terminates sockets that answer no heartbeat probe.
- **The role hierarchy and permission table** say which of OWNER, ADMIN, MEMBER
  and VIEWER may do what inside a workspace.
- **The workspace and board services** guard every operation with the shared
  `checkPermission`, change the stored workspaces, memberships and boards, and
  write activity-log entries.

Layout, one module per file:

| file | module | contents |
|---|---|---|
| `wrappers.dfy` | `Wrappers` | `Option`, for JavaScript's absent values |
| `roles.dfy` | `Roles` | roles, their ranks and the two comparisons |
| `permissions.dfy` | `Permissions` | the role-to-permission table and `HasPermission` |
| `protocol.dfy` | `Protocol` | event tags, the router's switch, inbound frames, outbound envelopes, transport actions |
| `connection.dfy` | `Connections` | the per-socket session record and the heartbeat step |
| `rooms.dfy` | `Rooms` | room indexes (`Map<string, Set<socket>>`) with create-on-join and delete-when-empty |
| `broadcast.dfy` | `Broadcast` | the fan-out loop and who it reaches |
| `session.dfy` | `Sessions` | the consistency invariant of the manager's maps, and how each event keeps it |
| `manager.dfy` | `Realtime` | class `WebSocketManager` with one method per handler |
| `store.dfy` | `Store` | the stored tables, `CheckPermission`, the board-update patch, store consistency |
| `workspace_service.dfy` | `WorkspaceServices` | class `WorkspaceService` |
| `board_service.dfy` | `BoardServices` | class `BoardService` |

How the model is built:

- The manager is a class whose fields are the source's maps.
  - `conns` holds each registered socket's session fields: user, current board,
    current workspace, liveness flag, open state, and whether its close handler
    has run.
  - `clients`, `boardClients` and `workspaceClients` are the three indexes,
    keyed by user, board and workspace.
  - Socket objects are represented by `ConnId` numbers.
- Every transport action is appended to `outbox`: a send, a ping, a terminate,
  or a close with a code.
- Each handler's outcome is a relation between two snapshots (`World`) of
  the manager's fields: `ConnectionHandled`, `Ponged`, `Ticked`, `Left`,
  `Joined`, `BoardEventHandled`, `Disconnected`. The router's outcome
  (`Routed`) is exactly the outcome of the handler for the frame's tag.
- Broadcasts are specified by `Delivers`: each target receives the envelope
  exactly once and nobody else receives it.
- The services share one `Database` object, which holds the workspaces, the
  membership table, the boards, the activity log and a counter for fresh keys.
  Each service operation states both outcomes:
  - a refusal leaves the database untouched;
  - a success lists every table's new contents.

Three behaviours of the code shape the model:

- **A leave may name a room other than the current one.** `handleBoardLeave`
  and `handleWorkspaceLeave` (src/websocket/WebSocketManager.ts:201-235 and
  351-385) remove the socket from the room the payload names. They then clear
  the current-room field, even when the named room is not the current one. In
  that case the socket stays in the room it was really in, with no current
  room. A current room always contains the socket (`Sessions.RoomIndexValid`).
  The converse, that a socket is only in its current room
  (`Sessions.RoomsExclusive`), is kept by every event except such a leave
  (`Realtime.RoutedKeepsExclusive` and the other `...KeepsExclusive` lemmas).
  `Realtime.LeaveElsewhereStrandsSocket` shows that leave breaking it, and
  `Realtime.StrandedSocketOutlivesClose` shows that the stranded socket is
  never pruned, even after its close handler has run.
- **Disconnect order.** `handleDisconnect` (src/websocket/WebSocketManager.ts:418-451)
  removes the socket from the user index before its two leaves. The model does
  the leaves first. Neither leave reads the user index, so the final state and
  the messages sent are the same.
- **The empty user id.** `handleDisconnect` skips the user index when the user
  id is the empty string, so such a socket stays filed there after it closes.
  `Sessions.ClientsValid` allows exactly that.

## Model

| member | source | states |
|---|---|---|
| Roles.RanksDistinct | src/domain/enums/Role.enum.ts:8-13 | ranks are OWNER 4, ADMIN 3, MEMBER 2, VIEWER 1, all in 1..4, and two roles share a rank only if they are the same role |
| Roles.HigherIrreflexive | src/domain/enums/Role.enum.ts:15-17 | no role outranks itself |
| Roles.HigherAsymmetric | src/domain/enums/Role.enum.ts:15-17 | if a outranks b then b does not outrank a |
| Roles.HigherTransitive | src/domain/enums/Role.enum.ts:15-17 | outranking is transitive |
| Roles.HigherTotal | src/domain/enums/Role.enum.ts:8-17 | of two distinct roles exactly one outranks the other |
| Roles.EqualOrHigherIsHigherOrSame | src/domain/enums/Role.enum.ts:15-21 | "equal or higher" is reflexive and holds exactly when a outranks b or a is b |
| Roles.OwnerTopViewerBottom | src/domain/enums/Role.enum.ts:8-21 | OWNER is at least every role; every role is at least VIEWER |
| Permissions.OwnerHoldsAll | src/domain/enums/Permission.enum.ts:16-28 | OWNER holds all ten permissions |
| Permissions.ViewerOnlyReads | src/domain/enums/Permission.enum.ts:45 | VIEWER holds a permission if and only if it is WORKSPACE_READ or BOARD_READ |
| Permissions.EveryRoleReads | src/domain/enums/Permission.enum.ts:16-50 | every role holds WORKSPACE_READ and BOARD_READ |
| Permissions.OwnerOnlyPermissions | src/domain/enums/Permission.enum.ts:16-50 | WORKSPACE_DELETE and MEMBER_UPDATE_ROLE are each held by a role if and only if it is OWNER |
| Permissions.MemberLacksAdministration | src/domain/enums/Permission.enum.ts:39-44 | MEMBER lacks WORKSPACE_UPDATE, MEMBER_INVITE, MEMBER_REMOVE and BOARD_DELETE |
| Permissions.PermissionsNested | src/domain/enums/Permission.enum.ts:16-46 | the lists are nested: VIEWER within MEMBER, MEMBER within ADMIN, ADMIN within OWNER |
| Permissions.PermissionMonotone | src/domain/enums/Permission.enum.ts:48-50 | a role ranked at least as high as another holds every permission the other holds |
| Protocol.Route | src/websocket/WebSocketManager.ts:126-150 | a routed tag is one of the seven handled events and its wire name is the frame's type; an unrouted type names no handled event |
| Protocol.RouteFindsHandled | src/websocket/WebSocketManager.ts:126-147 | each handled event's wire name routes to that event |
| Protocol.UnhandledTags | src/websocket/WebSocketManager.ts:148-149 | connect, disconnect, error, workspace:update and user:presence have no handler |
| Protocol.Stamp | src/websocket/WebSocketManager.ts:121-123 | a stamped frame carries the socket's user and the server time, with type and payload unchanged |
| Protocol.StampIgnoresClientClaims | src/websocket/WebSocketManager.ts:122-123 | whatever user and time the client wrote, the stamped frame is the same |
| Connections.Conn.WithCurrent | src/websocket/WebSocketManager.ts:14-19 | setting the current room of one kind changes only that room field |
| Connections.SilentForTwoTicksTerminated | src/websocket/WebSocketManager.ts:77-93 | an open socket that answers no probe is terminated by the first or the second tick; a tick terminates exactly the sockets not marked alive |
| Connections.AnsweringSocketSurvives | src/websocket/WebSocketManager.ts:61-63 | a socket that answers each probe before the next tick is pinged, not terminated, and stays open |
| Connections.ProbeKeepsSession | src/websocket/WebSocketManager.ts:82-90 | a tick changes neither the user nor the current rooms |
| Rooms.Add | src/websocket/WebSocketManager.ts:179-183 | after a join the room holds its old members plus the socket, no other room changes, and the room key exists |
| Rooms.Remove | src/websocket/WebSocketManager.ts:211-217 | after a leave the room holds its old members minus the socket, no other room changes, and the key is gone exactly when the room became empty |
| Rooms.AddKeepsNoEmptyRooms | src/websocket/WebSocketManager.ts:179-183 | joining never leaves an empty room in the index |
| Rooms.RemoveKeepsNoEmptyRooms | src/websocket/WebSocketManager.ts:211-217 | leaving never leaves an empty room in the index |
| Rooms.RemoveOtherRoomKeepsMembership | src/websocket/WebSocketManager.ts:205-219 | a leave naming another room leaves the socket in the room it is in |
| Rooms.RemoveThenAddRestores | src/websocket/WebSocketManager.ts:179-217 | leaving and rejoining a room the socket was in restores the index exactly |
| Rooms.RemoveAbsent | src/websocket/WebSocketManager.ts:211-217 | removing a socket that is not in the room changes nothing |
| Broadcast.FanOut | src/websocket/WebSocketManager.ts:453-469 | the loop sends the envelope exactly once to every open member of another user, and to nobody else |
| Broadcast.SenderNeverEchoed | src/websocket/WebSocketManager.ts:461-467 | a broadcast excluding a user reaches none of that user's sockets |
| Broadcast.AbsentRoomGetsNothing | src/websocket/WebSocketManager.ts:458-459 | a broadcast to a room with no entry sends nothing |
| Broadcast.ClosedSocketSkipped | src/websocket/WebSocketManager.ts:462-465 | a socket that is not open receives nothing |
| Broadcast.RecipientsIgnoreSessionFields | src/websocket/WebSocketManager.ts:461-465 | who a broadcast reaches depends only on each socket's open state and user |
| Sessions.ConnectKeepsValid | src/websocket/WebSocketManager.ts:50-57 | registering a fresh socket under its user keeps all indexes consistent |
| Sessions.PongKeepsValid | src/websocket/WebSocketManager.ts:61-63 | a pong keeps all indexes consistent |
| Sessions.ProbedKeepsValid | src/websocket/WebSocketManager.ts:77-93 | a heartbeat tick keeps all indexes consistent |
| Sessions.LeaveKeepsIndexValid | src/websocket/WebSocketManager.ts:211-219 | leaving any room and clearing the current room keeps that room index consistent |
| Sessions.JoinKeepsIndexValid | src/websocket/WebSocketManager.ts:178-183 | joining a non-empty room id and making it current keeps that room index consistent |
| Sessions.LeaveKeepsValid | src/websocket/WebSocketManager.ts:201-219 | a leave keeps the whole state consistent |
| Sessions.JoinKeepsValid | src/websocket/WebSocketManager.ts:178-183 | a join keeps the whole state consistent |
| Sessions.ShutKeepsValid | src/websocket/WebSocketManager.ts:60 | the transport closing keeps the state consistent |
| Sessions.ForgetKeepsValid | src/websocket/WebSocketManager.ts:421-430 | unfiling a shut socket that is in no room, and marking it handled, keeps the state consistent |
| Sessions.SecondCloseChangesNothing | src/websocket/WebSocketManager.ts:418-451 | once a socket's close handler has run, a second run would change nothing: no current rooms, already shut, already unfiled |
| Sessions.ExclusiveMembershipIsCurrent | src/websocket/WebSocketManager.ts:14-19 | under the strict reading a socket is in a room exactly when that room is its current one, and so in at most one room of each kind |
| Sessions.LeaveCurrentKeepsExclusive | src/websocket/WebSocketManager.ts:211-219 | leaving the current room keeps the strict reading of both indexes |
| Sessions.JoinKeepsExclusive | src/websocket/WebSocketManager.ts:168-183 | leaving the previous room and joining the named one keeps the strict reading of both indexes |
| Sessions.ConnectKeepsExclusive | src/websocket/WebSocketManager.ts:50-57 | registering a fresh socket keeps the strict reading |
| Sessions.ClearKeepsExclusive | src/websocket/WebSocketManager.ts:432-450 | taking a socket out of its current room and clearing that room keeps the strict reading |
| Realtime.RoutedMovesOnlySender | src/websocket/WebSocketManager.ts:126-147 | a dispatched frame changes only the sender's record, and only its current room of the event's kind; a join naming a room puts the sender in it; board events change no index; the user index never changes |
| Realtime.ConnectionKeepsExclusive | src/websocket/WebSocketManager.ts:37-75 | a handshake keeps the strict reading of the room indexes |
| Realtime.PongedKeepsExclusive | src/websocket/WebSocketManager.ts:61-63 | a pong keeps the strict reading |
| Realtime.TickedKeepsExclusive | src/websocket/WebSocketManager.ts:77-93 | a heartbeat tick keeps the strict reading |
| Realtime.JoinedKeepsExclusive | src/websocket/WebSocketManager.ts:157-349 | a join keeps the strict reading |
| Realtime.LeftKeepsExclusive | src/websocket/WebSocketManager.ts:201-385 | a leave keeps the strict reading unless it names a non-empty room other than the non-empty current one |
| Realtime.DisconnectedKeepsExclusive | src/websocket/WebSocketManager.ts:418-451 | the close handler keeps the strict reading |
| Realtime.RoutedKeepsExclusive | src/websocket/WebSocketManager.ts:126-147 | every dispatched frame keeps the strict reading except a leave naming a room other than the current one |
| Realtime.LeaveElsewhereStrandsSocket | src/websocket/WebSocketManager.ts:201-235 | a leave naming a room other than the current one leaves the socket in its current room with no current room, breaking the strict reading |
| Realtime.StrandedSocketOutlivesClose | src/websocket/WebSocketManager.ts:418-451 | after such a leave and the close handler, the closed socket is still a member of that room |
| Realtime.Authenticate | src/websocket/WebSocketManager.ts:42-74 | a handshake is accepted exactly when the token is present and verifies; a missing token and a failed verification get their own reasons |
| Realtime.BoardEventVerdict | src/websocket/WebSocketManager.ts:237-416 | an update needs a board id and truthy content, a cursor needs a board id, x and y, and then the board must be the socket's current board; an accepted event carries the sender's verified user; typing needs a board id that is the current board and rebroadcasts `Boolean(isTyping)`; a missing field is refused with that event's "required" message before the board is compared, and a present board that is not the current one with "You are not connected to this board" |
| Realtime.RouterError | src/websocket/WebSocketManager.ts:120-154 | an unparsable frame and an unhandled type are answered with their errors; a missing payload is an invalid format, except for the two leaves |
| Realtime.WebSocketManager.constructor | src/websocket/WebSocketManager.ts:21-35 | a new manager has empty indexes and a consistent state |
| Realtime.WebSocketManager.SendToClient | src/websocket/WebSocketManager.ts:509-516 | a frame is sent only while the socket is open |
| Realtime.WebSocketManager.SendError | src/websocket/WebSocketManager.ts:501-507 | an error envelope is sent only while the socket is open |
| Realtime.WebSocketManager.BroadcastTo | src/websocket/WebSocketManager.ts:453-487 | the envelope is delivered once to each open room member of another user |
| Realtime.WebSocketManager.BroadcastBoardUpdate | src/websocket/WebSocketManager.ts:489-499 | a service update reaches every open board member, the author included |
| Realtime.WebSocketManager.HandleConnection | src/websocket/WebSocketManager.ts:37-75 | `ConnectionHandled`: a refused handshake closes with 1008 and changes no index; an accepted one registers a fresh, alive socket under its user and confirms |
| Realtime.WebSocketManager.HandlePong | src/websocket/WebSocketManager.ts:61-63 | `Ponged`: a pong marks the socket alive and changes nothing else |
| Realtime.WebSocketManager.Tick | src/websocket/WebSocketManager.ts:77-93 | `Ticked`: every open socket is probed once (the unanswered ones terminated, the others marked unanswered and pinged) and no index changes |
| Realtime.ProbeAll | src/websocket/WebSocketManager.ts:79-91 | the heartbeat loop records exactly one probe action per open socket |
| Realtime.WebSocketManager.LeaveRoom | src/websocket/WebSocketManager.ts:211-235 | the socket leaves the named room, which is deleted once empty; the current room is cleared; the room's other users are told it is offline |
| Realtime.WebSocketManager.Vacate | src/websocket/WebSocketManager.ts:211-219 | the index and session changes of a leave, keeping the state consistent |
| Realtime.WebSocketManager.HandleLeave | src/websocket/WebSocketManager.ts:201-385 | `Left`: the named room (defaulting to the current one) is left only when it and the current room are non-empty ids; then the socket leaves it, the current room is cleared and the room is told it is offline; otherwise nothing changes |
| Realtime.WebSocketManager.HandleJoin | src/websocket/WebSocketManager.ts:157-349 | `Joined`: a missing room id is answered with an error; otherwise a socket in another room of that kind first leaves it (that room told offline), then it is in the new room and not in the old one, and the new room is told online |
| Realtime.WebSocketManager.MoveRoom | src/websocket/WebSocketManager.ts:168-198 | switching rooms is a leave of the old room followed by a join of the new, with the two notices in that order |
| Realtime.WebSocketManager.JoinRoom | src/websocket/WebSocketManager.ts:178-198 | the room becomes current, gains the socket, and its other users are told it is online |
| Realtime.WebSocketManager.Occupy | src/websocket/WebSocketManager.ts:178-183 | the index and session changes of a join, keeping the state consistent |
| Realtime.WebSocketManager.HandleDisconnect | src/websocket/WebSocketManager.ts:418-451 | `Disconnected`: the socket leaves its current board, then its current workspace, with those rooms told in that order, and is unfiled from its user unless the user id is empty |
| Realtime.WebSocketManager.Forget | src/websocket/WebSocketManager.ts:421-430 | the socket leaves its user's set, unless the user id is empty, and the set is deleted once empty |
| Realtime.WebSocketManager.LeaveBoth | src/websocket/WebSocketManager.ts:432-450 | the current board is left, then the current workspace, each only if present |
| Realtime.WebSocketManager.LeaveCurrent | src/websocket/WebSocketManager.ts:432-440 | the manager's own leave of the current room: a leave with notice when there is one, nothing otherwise |
| Realtime.WebSocketManager.HandleMessage | src/websocket/WebSocketManager.ts:116-155 | a frame the router refuses gets exactly one error and changes nothing else; any other frame is stamped and its outcome is `Routed`: exactly that of the handler of its tag |
| Realtime.WebSocketManager.Dispatch | src/websocket/WebSocketManager.ts:126-147 | `Routed`: a join has the outcome `Joined`, a leave `Left`, and an update, cursor or typing event `BoardEventHandled` |
| Realtime.WebSocketManager.HandleBoardEvent | src/websocket/WebSocketManager.ts:237-416 | `BoardEventHandled`: a refused update, cursor or typing event gets its error; an accepted one is delivered to the board's other users; only the outbox changes |
| Store.CheckPermission | src/services/Workspace.service.ts:218-235 | a call passes exactly when the user has a membership row whose role holds the permission; "not a member" exactly when there is no row; "You do not have permission for this action" when the row's role lacks the permission; every refusal is Forbidden (src/services/Board.service.ts:115-132 is an identical copy) |
| Store.OnlyOwnerAdministers | src/services/Workspace.service.ts:110-115 | the WORKSPACE_DELETE and MEMBER_UPDATE_ROLE checks pass for OWNER members and nobody else |
| Store.ReadAccessIsMembership | src/services/Board.service.ts:63-85 | the WORKSPACE_READ and BOARD_READ checks pass exactly for members |
| Store.ViewerRefusedWrites | src/services/Workspace.service.ts:232-234 | a VIEWER is refused every permission except the two reads, with "do not have permission" |
| Store.CheckMonotone | src/services/Workspace.service.ts:218-235 | a member ranked at least as high as one who passes a check passes it too |
| Store.ApplyBoardUpdate | src/repositories/implementations/Board.repository.ts:32-46 | an update overwrites the title and content it carries and keeps everything else |
| Store.UpdatesCompose | src/repositories/implementations/Board.repository.ts:32-46 | two updates in a row equal one update in which the later fields win |
| Store.UpdateIdempotent | src/repositories/implementations/Board.repository.ts:32-46 | repeating an update changes nothing more; an empty update changes nothing |
| Store.OwnerAlwaysPermitted | src/repositories/implementations/WorkspaceRepository.ts:41-54 | in a consistent store a workspace's owner passes every check in it |
| Store.PermittedMeansExists | src/services/Workspace.service.ts:166-167 | passing a check in a consistent store implies that the workspace exists |
| Store.DeleteKeepsConsistent | src/services/Workspace.service.ts:110-120 | removing a workspace with its memberships and boards keeps the store consistent |
| WorkspaceServices.WorkspaceService.constructor | src/services/Workspace.service.ts:37-44 | the service works on the database it is given |
| WorkspaceServices.WorkspaceService.CreateWorkspace | src/services/Workspace.service.ts:46-59 | a fresh workspace is stored, its owner becomes its OWNER member, and one WORKSPACE_CREATED entry is logged |
| WorkspaceServices.WorkspaceService.GetWorkspaceById | src/services/Workspace.service.ts:61-79 | a missing workspace is NotFound, checked before membership; a non-member is Forbidden; a member gets the workspace |
| WorkspaceServices.WorkspaceService.GetUserWorkspaces | src/services/Workspace.service.ts:81-83 | exactly the stored workspaces on which the user passes the WORKSPACE_READ check |
| WorkspaceServices.WorkspaceService.ListedIffReadable | src/services/Workspace.service.ts:61-83 | a workspace is listed for a user exactly when reading it by id succeeds, which is exactly when the user passes WORKSPACE_READ there |
| WorkspaceServices.WorkspaceService.UpdateWorkspace | src/services/Workspace.service.ts:85-108 | a refusal changes nothing; otherwise the name given replaces the old one and one WORKSPACE_UPDATED entry is logged |
| WorkspaceServices.WorkspaceService.DeleteWorkspace | src/services/Workspace.service.ts:110-120 | a refusal changes nothing; otherwise the workspace, its memberships and its boards are gone and nothing is logged |
| WorkspaceServices.WorkspaceService.AddMember | src/services/Workspace.service.ts:122-153 | a refusal, or an existing member (Conflict), changes nothing; otherwise the user gets the role and one MEMBER_ADDED entry is logged |
| WorkspaceServices.WorkspaceService.RemoveMember | src/services/Workspace.service.ts:155-181 | a refusal, the owner (Forbidden) or a missing row (database error) changes nothing; otherwise the row is deleted and one MEMBER_REMOVED entry is logged |
| WorkspaceServices.WorkspaceService.UpdateMemberRole | src/services/Workspace.service.ts:183-216 | a refusal, the owner (Forbidden) or a missing row (database error) changes nothing; otherwise the row gets the role and one MEMBER_ROLE_CHANGED entry is logged |
| BoardServices.BoardService.constructor | src/services/Board.service.ts:31-40 | the service works on the database it is given |
| BoardServices.BoardService.CreateBoard | src/services/Board.service.ts:42-61 | a refusal changes nothing; otherwise a fresh board, with `{}` as content when none is given, is stored and one BOARD_CREATED entry is logged |
| BoardServices.BoardService.GetBoardById | src/services/Board.service.ts:63-76 | a missing board is NotFound before any check; it succeeds exactly for members of the board's own workspace, with that board, and otherwise fails with the BOARD_READ check's refusal |
| BoardServices.BoardService.GetWorkspaceBoards | src/services/Board.service.ts:78-85 | it succeeds exactly for members of the workspace, and otherwise fails with the BOARD_READ check's refusal |
| BoardServices.BoardService.ListingAgreesWithLookup | src/services/Board.service.ts:63-85 | a workspace's listing holds exactly the boards of that workspace that can be read by id, and every board read by id is listed under its workspace |
| BoardServices.BoardService.UpdateBoard | src/services/Board.service.ts:87-113 | a missing board is NotFound and a refusal changes nothing; otherwise the patch is applied and one BOARD_UPDATED entry is logged |

## Left out

- The `ws` library: sockets are numbers, and the OPEN ready state is one boolean. The CONNECTING and CLOSING states are not distinguished from CLOSED.
- JSON parsing: a frame arrives already parsed, or as `None` when it does not parse. Room ids are strings or absent; a non-string id (a number, say) is not modelled.
- Frames the model cannot represent: a `type` that is not a string, and a payload that is a falsy non-object (`0`, `""`, `false`), which the leave handlers would replace by the current room and the other handlers would destructure into absent fields. JSON numbers are reals, so NaN and the infinities are not modelled.
- `extractToken` and JWT verification: the token arrives as an optional string, and verification is a function parameter.
- Clocks: `Date.now()` is one `now` parameter per event. The source reads the clock several times while handling one event.
- Timers: `setInterval` and `setupConnectionCleanup` are left out; `Tick` is one interval's work.
- Redis initialisation and the logger: they have no effect on the modelled state.
- Concurrency and `async`: each handler runs to completion before the next event. The one place this shows: `handleBoardJoin` and `handleWorkspaceJoin` `await` the leave of the previous room before joining the new one, so a frame handled in that gap would see the socket in no room of that kind; the model's join (`MoveRoom`) is one atomic step.
- Sockets refused at the handshake are closed and never registered. The heartbeat here therefore visits registered sockets only.
- Realtime.WebSocketManager.HandleDisconnect: requires that the close handler has not run yet, because the `close` event fires once per socket. `Sessions.SecondCloseChangesNothing` states what a second run would do.
- The database: Prisma and its tables are maps in one `Database` object. Uuids are numbers from a counter. `createdAt`, `updatedAt`, `joinedAt`, and the log entry's id and timestamp are left out.
- Store.Content: board content is kept as its JSON text.
- Prisma errors other than a missing row under update or delete: for example, lost connections are left out.
- The database schema is not part of this model. DeleteWorkspace assumes that deleting a workspace deletes its membership rows and boards with it, and keeps its log entries.
- Request validation (Joi), controllers and routes: roles arrive as `Role` values and patches as typed fields. Name and title length limits are not modelled.
- WorkspaceServices.WorkspaceService.GetUserWorkspaces: returns a set; the order of the database's list is not modelled.
- BoardServices.BoardService.GetWorkspaceBoards: returns a set; the order of the database's list is not modelled.
- The user service, the activity-log service and the unused repository queries are left out: `findByIdWithMembers` and `findByOwnerId` are never called by the modelled services.
- BOARD_DELETE: the permission is in the table, but no service operation uses it.
