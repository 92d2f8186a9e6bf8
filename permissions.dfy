/**
 * The permission table (src/domain/enums/Permission.enum.ts): which role may
 * perform which action inside a workspace.
 */
module Permissions {
  import opened Roles

  datatype Permission =
    | WorkspaceRead | WorkspaceUpdate | WorkspaceDelete
    | MemberInvite | MemberRemove | MemberUpdateRole
    | BoardCreate | BoardRead | BoardUpdate | BoardDelete

  /** `RolePermissions`: the list of permissions granted to each role. */
  function RolePermissions(r: Role): seq<Permission>
  {
    match r
    case Owner =>
      [WorkspaceRead, WorkspaceUpdate, WorkspaceDelete, MemberInvite, MemberRemove,
       MemberUpdateRole, BoardCreate, BoardRead, BoardUpdate, BoardDelete]
    case Admin =>
      [WorkspaceRead, WorkspaceUpdate, MemberInvite, MemberRemove,
       BoardCreate, BoardRead, BoardUpdate, BoardDelete]
    case Member =>
      [WorkspaceRead, BoardCreate, BoardRead, BoardUpdate]
    case Viewer =>
      [WorkspaceRead, BoardRead]
  }

  /** `hasPermission`: the permission occurs in the role's list. */
  predicate HasPermission(r: Role, p: Permission)
  {
    p in RolePermissions(r)
  }

  /** OWNER holds every one of the ten permissions. */
  lemma OwnerHoldsAll(p: Permission)
    ensures HasPermission(Owner, p)
  {
  }

  /** VIEWER holds exactly the two read permissions. */
  lemma ViewerOnlyReads(p: Permission)
    ensures HasPermission(Viewer, p) <==> p == WorkspaceRead || p == BoardRead
  {
  }

  /** Every role may read the workspace and its boards. */
  lemma EveryRoleReads(r: Role)
    ensures HasPermission(r, WorkspaceRead) && HasPermission(r, BoardRead)
  {
  }

  /** Deleting a workspace and changing member roles are reserved to OWNER. */
  lemma OwnerOnlyPermissions(r: Role)
    ensures HasPermission(r, WorkspaceDelete) <==> r == Owner
    ensures HasPermission(r, MemberUpdateRole) <==> r == Owner
  {
  }

  /** MEMBER cannot administer the workspace nor delete boards. */
  lemma MemberLacksAdministration()
    ensures !HasPermission(Member, WorkspaceUpdate)
    ensures !HasPermission(Member, MemberInvite)
    ensures !HasPermission(Member, MemberRemove)
    ensures !HasPermission(Member, BoardDelete)
  {
  }

  /** The permission lists are nested: VIEWER within MEMBER within ADMIN within OWNER. */
  lemma PermissionsNested(p: Permission)
    ensures HasPermission(Viewer, p) ==> HasPermission(Member, p)
    ensures HasPermission(Member, p) ==> HasPermission(Admin, p)
    ensures HasPermission(Admin, p) ==> HasPermission(Owner, p)
  {
  }

  /** A role ranked at least as high as another holds every permission the other holds. */
  lemma {:induction false} PermissionMonotone(a: Role, b: Role, p: Permission)
    requires HasEqualOrHigherRole(a, b) && HasPermission(b, p)
    ensures HasPermission(a, p)
  {
    PermissionsNested(p);
    EqualOrHigherIsHigherOrSame(a, b);
  }
}
