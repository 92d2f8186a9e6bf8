/**
 * The persistent state the workspace and board services work on
 * (src/services/Workspace.service.ts, src/services/Board.service.ts, through
 * the repositories in src/repositories/implementations/): workspaces, the
 * membership table, boards and the activity log, together with the
 * `checkPermission` guard both services share.
 */
module Store {
  import opened Wrappers
  import opened Roles
  import opened Permissions
  import opened Identity

  /** Primary keys are uuids in the database; here a counter hands them out. */
  type Id = nat

  /** A board's `content` JSON object, kept as its text. */
  type Content = string

  /** What a board gets when it is created without content (`data.content || {}`). */
  const EmptyObject: Content := "{}"

  datatype Workspace = Workspace(id: Id, name: string, ownerId: UserId)

  datatype Board = Board(id: Id, workspaceId: Id, title: string, content: Content, createdBy: UserId)

  datatype WorkspaceMember = WorkspaceMember(workspaceId: Id, userId: UserId, role: Role)

  /** The activity types the two services write. */
  datatype ActivityType =
    | WorkspaceCreated | WorkspaceUpdated
    | MemberAdded | MemberRemoved | MemberRoleChanged
    | BoardCreated | BoardUpdated

  /** The fields a board update may carry; an absent field is left as it is. */
  datatype BoardPatch = BoardPatch(title: Option<string>, content: Option<Content>)

  /** The `metadata` object of each kind of log entry. */
  datatype Metadata =
    | Created(workspaceName: string)
    | Renamed(name: Option<string>)
    | Added(addedUserId: UserId, role: Role)
    | Removed(removedUserId: UserId)
    | RoleChange(targetUserId: UserId, newRole: Role)
    | NewBoard(boardId: Id, title: string)
    | BoardChange(boardId: Id, updates: BoardPatch)

  datatype ActivityLog = ActivityLog(workspaceId: Id, userId: UserId, action: ActivityType, metadata: Metadata)

  /**
   * The errors a service call ends with: the application errors of
   * src/utils/errors.ts with their messages, and `StoreFailure` for an error
   * the database raises itself (updating or deleting a row that does not
   * exist), which the error middleware answers with status 500.
   */
  datatype Failure =
    | NotFound(message: string)
    | Forbidden(message: string)
    | Conflict(message: string)
    | StoreFailure

  datatype Result<T> = Ok(value: T) | Err(error: Failure)

  const NotAMember := "You are not a member of this workspace"
  const NoPermission := "You do not have permission for this action"
  const WorkspaceNotFound := "Workspace not found"
  const BoardNotFound := "Board not found"
  const AlreadyMember := "User is already a member"
  const CannotRemoveOwner := "Cannot remove workspace owner"
  const CannotChangeOwnerRole := "Cannot change owner role"

  /** The membership table: the role of each (workspace, user) pair that has a row. */
  type Memberships = map<(Id, UserId), Role>

  /**
   * `checkPermission`: `None` lets the call through; otherwise the Forbidden
   * error it ends with, "not a member" before "no permission".
   */
  function CheckPermission(members: Memberships, workspaceId: Id, userId: UserId, permission: Permission): (r: Option<Failure>)
    ensures r.None? <==> (workspaceId, userId) in members && HasPermission(members[(workspaceId, userId)], permission)
    ensures r == Some(Forbidden(NotAMember)) <==> (workspaceId, userId) !in members
    ensures (workspaceId, userId) in members && !HasPermission(members[(workspaceId, userId)], permission)
        ==> r == Some(Forbidden(NoPermission))
    ensures r.Some? ==> r.value.Forbidden?
  {
    if (workspaceId, userId) !in members then Some(Forbidden(NotAMember))
    else if !HasPermission(members[(workspaceId, userId)], permission) then Some(Forbidden(NoPermission))
    else None
  }

  /** Deleting a workspace and changing roles pass the check for OWNER members and nobody else. */
  lemma OnlyOwnerAdministers(members: Memberships, workspaceId: Id, userId: UserId)
    ensures CheckPermission(members, workspaceId, userId, WorkspaceDelete).None?
        <==> (workspaceId, userId) in members && members[(workspaceId, userId)] == Owner
    ensures CheckPermission(members, workspaceId, userId, MemberUpdateRole).None?
        <==> (workspaceId, userId) in members && members[(workspaceId, userId)] == Owner
  {
    if (workspaceId, userId) in members {
      OwnerOnlyPermissions(members[(workspaceId, userId)]);
    }
  }

  /** Read access is membership: every role passes the two read checks. */
  lemma ReadAccessIsMembership(members: Memberships, workspaceId: Id, userId: UserId)
    ensures CheckPermission(members, workspaceId, userId, WorkspaceRead).None? <==> (workspaceId, userId) in members
    ensures CheckPermission(members, workspaceId, userId, BoardRead).None? <==> (workspaceId, userId) in members
  {
    if (workspaceId, userId) in members {
      EveryRoleReads(members[(workspaceId, userId)]);
    }
  }

  /** A VIEWER member is turned away from everything but the two reads, with "no permission". */
  lemma ViewerRefusedWrites(members: Memberships, workspaceId: Id, userId: UserId, p: Permission)
    requires (workspaceId, userId) in members && members[(workspaceId, userId)] == Viewer
    requires p != WorkspaceRead && p != BoardRead
    ensures CheckPermission(members, workspaceId, userId, p) == Some(Forbidden(NoPermission))
  {
    ViewerOnlyReads(p);
  }

  /** A member ranked at least as high as one who passes a check passes it too. */
  lemma {:induction false} CheckMonotone(members: Memberships, workspaceId: Id, a: UserId, b: UserId, p: Permission)
    requires CheckPermission(members, workspaceId, b, p).None?
    requires (workspaceId, a) in members
    requires HasEqualOrHigherRole(members[(workspaceId, a)], members[(workspaceId, b)])
    ensures CheckPermission(members, workspaceId, a, p).None?
  {
    PermissionMonotone(members[(workspaceId, a)], members[(workspaceId, b)], p);
  }

  /**
   * The update `Board.repository.ts` performs: the fields present in the
   * patch replace the board's, the others are kept.
   */
  function ApplyBoardUpdate(b: Board, patch: BoardPatch): (r: Board)
    ensures r.id == b.id && r.workspaceId == b.workspaceId && r.createdBy == b.createdBy
    ensures r.title == patch.title.GetOr(b.title) && r.content == patch.content.GetOr(b.content)
  {
    b.(title := patch.title.GetOr(b.title), content := patch.content.GetOr(b.content))
  }

  /** The patch whose fields are those of `second` where present and of `first` otherwise. */
  function Then(first: BoardPatch, second: BoardPatch): BoardPatch
  {
    BoardPatch(if second.title.Some? then second.title else first.title,
               if second.content.Some? then second.content else first.content)
  }

  /** Two updates in a row are one update in which the later fields win. */
  lemma UpdatesCompose(b: Board, p: BoardPatch, q: BoardPatch)
    ensures ApplyBoardUpdate(ApplyBoardUpdate(b, p), q) == ApplyBoardUpdate(b, Then(p, q))
  {
  }

  /** Applying the same update twice is applying it once; the empty patch changes nothing. */
  lemma UpdateIdempotent(b: Board, p: BoardPatch)
    ensures ApplyBoardUpdate(ApplyBoardUpdate(b, p), p) == ApplyBoardUpdate(b, p)
    ensures ApplyBoardUpdate(b, BoardPatch(None, None)) == b
  {
    UpdatesCompose(b, p, p);
    assert Then(p, p) == p;
  }

  /**
   * What the database's keys and foreign keys guarantee, and what the
   * services keep: every workspace's owner has an OWNER row in it, every
   * membership row and every board belongs to an existing workspace, and
   * every key in use is below the counter that hands out fresh ones.
   */
  ghost predicate Consistent(workspaces: map<Id, Workspace>, members: Memberships, boards: map<Id, Board>, nextId: Id)
  {
    && (forall w :: w in workspaces ==>
          && workspaces[w].id == w && w < nextId
          && (w, workspaces[w].ownerId) in members
          && members[(w, workspaces[w].ownerId)] == Owner)
    && (forall k :: k in members ==> k.0 in workspaces)
    && (forall b :: b in boards ==> boards[b].id == b && b < nextId && boards[b].workspaceId in workspaces)
  }

  /** A workspace's owner passes every permission check in it. */
  lemma OwnerAlwaysPermitted(workspaces: map<Id, Workspace>, members: Memberships, boards: map<Id, Board>, nextId: Id,
                             workspaceId: Id, p: Permission)
    requires Consistent(workspaces, members, boards, nextId) && workspaceId in workspaces
    ensures CheckPermission(members, workspaceId, workspaces[workspaceId].ownerId, p).None?
  {
    OwnerHoldsAll(p);
  }

  /** Passing any check in a consistent store implies that the workspace exists. */
  lemma PermittedMeansExists(workspaces: map<Id, Workspace>, members: Memberships, boards: map<Id, Board>, nextId: Id,
                             workspaceId: Id, userId: UserId, p: Permission)
    requires Consistent(workspaces, members, boards, nextId)
    requires CheckPermission(members, workspaceId, userId, p).None?
    ensures workspaceId in workspaces
  {
    assert (workspaceId, userId) in members;
  }

  /** Removing a workspace with its membership rows and its boards keeps the store consistent. */
  lemma DeleteKeepsConsistent(workspaces: map<Id, Workspace>, members: Memberships, boards: map<Id, Board>, nextId: Id,
                              workspaceId: Id)
    requires Consistent(workspaces, members, boards, nextId)
    ensures Consistent(workspaces - {workspaceId},
                       map k | k in members && k.0 != workspaceId :: members[k],
                       map b | b in boards && boards[b].workspaceId != workspaceId :: boards[b],
                       nextId)
  {
  }

  /** The tables behind the repositories. */
  class Database {
    var workspaces: map<Id, Workspace>
    var members: Memberships
    var boards: map<Id, Board>
    var logs: seq<ActivityLog>
    var nextId: Id

    ghost predicate Valid()
      reads this
    {
      Consistent(workspaces, members, boards, nextId)
    }

    /** An empty database. */
    constructor()
      ensures Valid()
      ensures workspaces == map[] && members == map[] && boards == map[] && logs == [] && nextId == 0
    {
      workspaces := map[];
      members := map[];
      boards := map[];
      logs := [];
      nextId := 0;
    }
  }
}
