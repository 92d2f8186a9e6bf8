/**
 * `WorkspaceService` (src/services/Workspace.service.ts): creating, reading,
 * renaming and deleting workspaces and managing their members, each write
 * guarded by `checkPermission` and recorded in the activity log.
 */
module WorkspaceServices {
  import opened Wrappers
  import opened Roles
  import opened Permissions
  import opened Store
  import opened Identity

  class WorkspaceService {
    const db: Database

    constructor(db: Database)
      ensures this.db == db
    {
      this.db := db;
    }

    /**
     * `createWorkspace`: a fresh workspace whose owner becomes its OWNER
     * member, and a WORKSPACE_CREATED entry in the log. Nothing is checked.
     */
    method CreateWorkspace(name: string, ownerId: UserId) returns (w: Workspace)
      requires db.Valid()
      modifies db
      ensures db.Valid()
      ensures w == Workspace(old(db.nextId), name, ownerId) && w.id !in old(db.workspaces)
      ensures forall u :: (w.id, u) !in old(db.members)
      ensures db.workspaces == old(db.workspaces)[w.id := w]
      ensures db.members == old(db.members)[(w.id, ownerId) := Owner]
      ensures db.boards == old(db.boards) && db.nextId == old(db.nextId) + 1
      ensures db.logs == old(db.logs) + [ActivityLog(w.id, ownerId, WorkspaceCreated, Created(name))]
    {
      w := Workspace(db.nextId, name, ownerId);
      db.workspaces := db.workspaces[w.id := w];
      db.members := db.members[(w.id, ownerId) := Owner];
      db.nextId := db.nextId + 1;
      db.logs := db.logs + [ActivityLog(w.id, ownerId, WorkspaceCreated, Created(name))];
    }

    /**
     * `getWorkspaceById`: NotFound for a missing workspace, looked up before
     * membership, then Forbidden for a non-member.
     */
    function GetWorkspaceById(workspaceId: Id, userId: UserId): (r: Result<Workspace>)
      reads db
      ensures r.Ok? <==> workspaceId in db.workspaces && (workspaceId, userId) in db.members
      ensures r.Ok? ==> r.value == db.workspaces[workspaceId]
      ensures workspaceId !in db.workspaces ==> r == Err(NotFound(WorkspaceNotFound))
      ensures workspaceId in db.workspaces && (workspaceId, userId) !in db.members ==> r == Err(Forbidden(NotAMember))
    {
      if workspaceId !in db.workspaces then Err(NotFound(WorkspaceNotFound))
      else if (workspaceId, userId) !in db.members then Err(Forbidden(NotAMember))
      else Ok(db.workspaces[workspaceId])
    }

    /** `getUserWorkspaces`: the workspaces in which the user has a membership row, which are those it may read. */
    function GetUserWorkspaces(userId: UserId): (r: set<Workspace>)
      reads db
      ensures forall w :: w in r <==> w in db.workspaces.Values && CheckPermission(db.members, w.id, userId, WorkspaceRead).None?
    {
      set w | w in db.workspaces.Values && (w.id, userId) in db.members
    }

    /**
     * A workspace is listed for a user exactly when reading it by id succeeds,
     * which is exactly when that user passes the WORKSPACE_READ check on it.
     */
    lemma {:induction false} ListedIffReadable(userId: UserId, workspaceId: Id)
      requires db.Valid()
      ensures (exists w :: w in GetUserWorkspaces(userId) && w.id == workspaceId)
          <==> GetWorkspaceById(workspaceId, userId).Ok?
      ensures GetWorkspaceById(workspaceId, userId).Ok?
          <==> workspaceId in db.workspaces && CheckPermission(db.members, workspaceId, userId, WorkspaceRead).None?
    {
      ReadAccessIsMembership(db.members, workspaceId, userId);
      if GetWorkspaceById(workspaceId, userId).Ok? {
        var w := db.workspaces[workspaceId];
        assert w in db.workspaces.Values;
        assert w in GetUserWorkspaces(userId);
      }
      if w :| w in GetUserWorkspaces(userId) && w.id == workspaceId {
        var k :| k in db.workspaces && db.workspaces[k] == w;
        assert k == workspaceId;
      }
    }

    /**
     * `updateWorkspace`: a holder of WORKSPACE_UPDATE renames the workspace
     * (an absent name keeps the old one) and a WORKSPACE_UPDATED entry is
     * logged; a refusal changes nothing.
     */
    method UpdateWorkspace(workspaceId: Id, userId: UserId, name: Option<string>) returns (r: Result<Workspace>)
      requires db.Valid()
      modifies db
      ensures db.Valid()
      ensures var denied := CheckPermission(old(db.members), workspaceId, userId, WorkspaceUpdate);
        if denied.Some? then r == Err(denied.value) && unchanged(db)
        else
          && workspaceId in old(db.workspaces)
          && var w := old(db.workspaces)[workspaceId];
          && r == Ok(w.(name := name.GetOr(w.name)))
          && db.workspaces == old(db.workspaces)[workspaceId := r.value]
          && db.members == old(db.members) && db.boards == old(db.boards) && db.nextId == old(db.nextId)
          && db.logs == old(db.logs) + [ActivityLog(workspaceId, userId, WorkspaceUpdated, Renamed(name))]
    {
      var denied := CheckPermission(db.members, workspaceId, userId, WorkspaceUpdate);
      if denied.Some? {
        return Err(denied.value);
      }
      PermittedMeansExists(db.workspaces, db.members, db.boards, db.nextId, workspaceId, userId, WorkspaceUpdate);
      var w := db.workspaces[workspaceId];
      var renamed := w.(name := name.GetOr(w.name));
      db.workspaces := db.workspaces[workspaceId := renamed];
      db.logs := db.logs + [ActivityLog(workspaceId, userId, WorkspaceUpdated, Renamed(name))];
      r := Ok(renamed);
    }

    /**
     * `deleteWorkspace`: a holder of WORKSPACE_DELETE (an OWNER) removes the
     * workspace together with its membership rows and its boards; nothing is
     * logged. A refusal changes nothing.
     */
    method DeleteWorkspace(workspaceId: Id, userId: UserId) returns (r: Result<()>)
      requires db.Valid()
      modifies db
      ensures db.Valid()
      ensures var denied := CheckPermission(old(db.members), workspaceId, userId, WorkspaceDelete);
        if denied.Some? then r == Err(denied.value) && unchanged(db)
        else
          && r == Ok(())
          && workspaceId in old(db.workspaces)
          && db.workspaces == old(db.workspaces) - {workspaceId}
          && db.members == (map k | k in old(db.members) && k.0 != workspaceId :: old(db.members)[k])
          && db.boards == (map b | b in old(db.boards) && old(db.boards)[b].workspaceId != workspaceId :: old(db.boards)[b])
          && db.logs == old(db.logs) && db.nextId == old(db.nextId)
    {
      var denied := CheckPermission(db.members, workspaceId, userId, WorkspaceDelete);
      if denied.Some? {
        return Err(denied.value);
      }
      PermittedMeansExists(db.workspaces, db.members, db.boards, db.nextId, workspaceId, userId, WorkspaceDelete);
      DeleteKeepsConsistent(db.workspaces, db.members, db.boards, db.nextId, workspaceId);
      var members := db.members;
      var boards := db.boards;
      db.workspaces := db.workspaces - {workspaceId};
      db.members := map k | k in members && k.0 != workspaceId :: members[k];
      db.boards := map b | b in boards && boards[b].workspaceId != workspaceId :: boards[b];
      r := Ok(());
    }

    /**
     * `addMember`: a holder of MEMBER_INVITE adds the user with the given role
     * and one MEMBER_ADDED entry is logged; Conflict, with no change, when the
     * user already has a row.
     */
    method AddMember(workspaceId: Id, userId: UserId, role: Role, requesterId: UserId) returns (r: Result<WorkspaceMember>)
      requires db.Valid()
      modifies db
      ensures db.Valid()
      ensures var denied := CheckPermission(old(db.members), workspaceId, requesterId, MemberInvite);
        if denied.Some? then r == Err(denied.value) && unchanged(db)
        else if (workspaceId, userId) in old(db.members) then r == Err(Conflict(AlreadyMember)) && unchanged(db)
        else
          && r == Ok(WorkspaceMember(workspaceId, userId, role))
          && db.members == old(db.members)[(workspaceId, userId) := role]
          && db.workspaces == old(db.workspaces) && db.boards == old(db.boards) && db.nextId == old(db.nextId)
          && db.logs == old(db.logs) + [ActivityLog(workspaceId, requesterId, MemberAdded, Added(userId, role))]
    {
      var denied := CheckPermission(db.members, workspaceId, requesterId, MemberInvite);
      if denied.Some? {
        return Err(denied.value);
      }
      if (workspaceId, userId) in db.members {
        return Err(Conflict(AlreadyMember));
      }
      PermittedMeansExists(db.workspaces, db.members, db.boards, db.nextId, workspaceId, requesterId, MemberInvite);
      db.members := db.members[(workspaceId, userId) := role];
      db.logs := db.logs + [ActivityLog(workspaceId, requesterId, MemberAdded, Added(userId, role))];
      r := Ok(WorkspaceMember(workspaceId, userId, role));
    }

    /**
     * `removeMember`: a holder of MEMBER_REMOVE deletes the user's row and one
     * MEMBER_REMOVED entry is logged. The owner cannot be removed (Forbidden);
     * deleting a row that does not exist is a database error. A refusal
     * changes nothing.
     */
    method RemoveMember(workspaceId: Id, userId: UserId, requesterId: UserId) returns (r: Result<()>)
      requires db.Valid()
      modifies db
      ensures db.Valid()
      ensures var denied := CheckPermission(old(db.members), workspaceId, requesterId, MemberRemove);
        if denied.Some? then r == Err(denied.value) && unchanged(db)
        else
          && workspaceId in old(db.workspaces)
          && if old(db.workspaces)[workspaceId].ownerId == userId then r == Err(Forbidden(CannotRemoveOwner)) && unchanged(db)
             else if (workspaceId, userId) !in old(db.members) then r == Err(StoreFailure) && unchanged(db)
             else
               && r == Ok(())
               && db.members == old(db.members) - {(workspaceId, userId)}
               && db.workspaces == old(db.workspaces) && db.boards == old(db.boards) && db.nextId == old(db.nextId)
               && db.logs == old(db.logs) + [ActivityLog(workspaceId, requesterId, MemberRemoved, Removed(userId))]
    {
      var denied := CheckPermission(db.members, workspaceId, requesterId, MemberRemove);
      if denied.Some? {
        return Err(denied.value);
      }
      PermittedMeansExists(db.workspaces, db.members, db.boards, db.nextId, workspaceId, requesterId, MemberRemove);
      if db.workspaces[workspaceId].ownerId == userId {
        return Err(Forbidden(CannotRemoveOwner));
      }
      if (workspaceId, userId) !in db.members {
        return Err(StoreFailure);
      }
      db.members := db.members - {(workspaceId, userId)};
      db.logs := db.logs + [ActivityLog(workspaceId, requesterId, MemberRemoved, Removed(userId))];
      r := Ok(());
    }

    /**
     * `updateMemberRole`: a holder of MEMBER_UPDATE_ROLE (an OWNER) gives the
     * user's row the new role and one MEMBER_ROLE_CHANGED entry is logged. The
     * owner's own role cannot be changed (Forbidden); updating a row that does
     * not exist is a database error. A refusal changes nothing.
     */
    method UpdateMemberRole(workspaceId: Id, userId: UserId, role: Role, requesterId: UserId) returns (r: Result<WorkspaceMember>)
      requires db.Valid()
      modifies db
      ensures db.Valid()
      ensures var denied := CheckPermission(old(db.members), workspaceId, requesterId, MemberUpdateRole);
        if denied.Some? then r == Err(denied.value) && unchanged(db)
        else
          && workspaceId in old(db.workspaces)
          && if old(db.workspaces)[workspaceId].ownerId == userId then r == Err(Forbidden(CannotChangeOwnerRole)) && unchanged(db)
             else if (workspaceId, userId) !in old(db.members) then r == Err(StoreFailure) && unchanged(db)
             else
               && r == Ok(WorkspaceMember(workspaceId, userId, role))
               && db.members == old(db.members)[(workspaceId, userId) := role]
               && db.workspaces == old(db.workspaces) && db.boards == old(db.boards) && db.nextId == old(db.nextId)
               && db.logs == old(db.logs) + [ActivityLog(workspaceId, requesterId, MemberRoleChanged, RoleChange(userId, role))]
    {
      var denied := CheckPermission(db.members, workspaceId, requesterId, MemberUpdateRole);
      if denied.Some? {
        return Err(denied.value);
      }
      PermittedMeansExists(db.workspaces, db.members, db.boards, db.nextId, workspaceId, requesterId, MemberUpdateRole);
      if db.workspaces[workspaceId].ownerId == userId {
        return Err(Forbidden(CannotChangeOwnerRole));
      }
      if (workspaceId, userId) !in db.members {
        return Err(StoreFailure);
      }
      db.members := db.members[(workspaceId, userId) := role];
      db.logs := db.logs + [ActivityLog(workspaceId, requesterId, MemberRoleChanged, RoleChange(userId, role))];
      r := Ok(WorkspaceMember(workspaceId, userId, role));
    }
  }
}
