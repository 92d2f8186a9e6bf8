/**
 * `BoardService` (src/services/Board.service.ts): creating, reading, listing
 * and updating boards, each call guarded by `checkPermission` on the board's
 * workspace and each write recorded in the activity log.
 */
module BoardServices {
  import opened Wrappers
  import opened Permissions
  import opened Store
  import opened Identity

  class BoardService {
    const db: Database

    constructor(db: Database)
      ensures this.db == db
    {
      this.db := db;
    }

    /**
     * `createBoard`: a holder of BOARD_CREATE in the workspace gets a fresh
     * board, with `{}` as content when none is given, and one BOARD_CREATED
     * entry is logged. A refusal changes nothing.
     */
    method CreateBoard(workspaceId: Id, title: string, content: Option<Content>, createdBy: UserId) returns (r: Result<Board>)
      requires db.Valid()
      modifies db
      ensures db.Valid()
      ensures var denied := CheckPermission(old(db.members), workspaceId, createdBy, BoardCreate);
        if denied.Some? then r == Err(denied.value) && unchanged(db)
        else
          && var b := Board(old(db.nextId), workspaceId, title, content.GetOr(EmptyObject), createdBy);
          && r == Ok(b) && b.id !in old(db.boards)
          && db.boards == old(db.boards)[b.id := b]
          && db.workspaces == old(db.workspaces) && db.members == old(db.members)
          && db.nextId == old(db.nextId) + 1
          && db.logs == old(db.logs) + [ActivityLog(workspaceId, createdBy, BoardCreated, NewBoard(b.id, title))]
    {
      var denied := CheckPermission(db.members, workspaceId, createdBy, BoardCreate);
      if denied.Some? {
        return Err(denied.value);
      }
      PermittedMeansExists(db.workspaces, db.members, db.boards, db.nextId, workspaceId, createdBy, BoardCreate);
      var b := Board(db.nextId, workspaceId, title, content.GetOr(EmptyObject), createdBy);
      db.boards := db.boards[b.id := b];
      db.nextId := db.nextId + 1;
      db.logs := db.logs + [ActivityLog(workspaceId, createdBy, BoardCreated, NewBoard(b.id, title))];
      r := Ok(b);
    }

    /**
     * `getBoardById`: NotFound for a missing board, before any permission
     * check; then BOARD_READ on the workspace the board belongs to.
     */
    function GetBoardById(boardId: Id, userId: UserId): (r: Result<Board>)
      reads db
      ensures boardId !in db.boards ==> r == Err(NotFound(BoardNotFound))
      ensures r.Ok? <==> boardId in db.boards && (db.boards[boardId].workspaceId, userId) in db.members
      ensures r.Ok? ==> r.value == db.boards[boardId]
      ensures r.Err? && boardId in db.boards ==>
        CheckPermission(db.members, db.boards[boardId].workspaceId, userId, BoardRead) == Some(r.error)
    {
      if boardId !in db.boards then Err(NotFound(BoardNotFound))
      else
        var b := db.boards[boardId];
        var denied := CheckPermission(db.members, b.workspaceId, userId, BoardRead);
        if denied.Some? then Err(denied.value) else Ok(b)
    }

    /** `getWorkspaceBoards`: for a member (every role holds BOARD_READ), the boards of that workspace and no others. */
    function GetWorkspaceBoards(workspaceId: Id, userId: UserId): (r: Result<set<Board>>)
      reads db
      ensures r.Ok? <==> (workspaceId, userId) in db.members
      ensures r.Err? ==> CheckPermission(db.members, workspaceId, userId, BoardRead) == Some(r.error)
    {
      var denied := CheckPermission(db.members, workspaceId, userId, BoardRead);
      if denied.Some? then Err(denied.value)
      else Ok(set b | b in db.boards.Values && b.workspaceId == workspaceId)
    }

    /**
     * Listing and reading one board agree: a member who can list a workspace's
     * boards gets exactly the boards of that workspace it can read by id, and
     * a board read by id is among its workspace's listed boards.
     */
    lemma {:induction false} ListingAgreesWithLookup(workspaceId: Id, userId: UserId, boardId: Id)
      requires db.Valid()
      ensures GetWorkspaceBoards(workspaceId, userId).Ok? ==>
        forall b :: b in GetWorkspaceBoards(workspaceId, userId).value
          <==> b.workspaceId == workspaceId && GetBoardById(b.id, userId) == Ok(b)
      ensures GetBoardById(boardId, userId).Ok? ==>
        var b := GetBoardById(boardId, userId).value;
        GetWorkspaceBoards(b.workspaceId, userId).Ok? && b in GetWorkspaceBoards(b.workspaceId, userId).value
    {
      if GetWorkspaceBoards(workspaceId, userId).Ok? {
        forall b
          ensures b in GetWorkspaceBoards(workspaceId, userId).value
            <==> b.workspaceId == workspaceId && GetBoardById(b.id, userId) == Ok(b)
        {
          if b in GetWorkspaceBoards(workspaceId, userId).value {
            var k :| k in db.boards && db.boards[k] == b;
            assert k == b.id;
          }
          if b.workspaceId == workspaceId && GetBoardById(b.id, userId) == Ok(b) {
            assert b in db.boards.Values;
          }
        }
      }
      if GetBoardById(boardId, userId).Ok? {
        var b := db.boards[boardId];
        assert b in db.boards.Values;
      }
    }

    /**
     * `updateBoard`: NotFound for a missing board; then BOARD_UPDATE on its
     * workspace; then the fields present in the patch are written and one
     * BOARD_UPDATED entry is logged. A refusal changes nothing.
     */
    method UpdateBoard(boardId: Id, userId: UserId, patch: BoardPatch) returns (r: Result<()>)
      requires db.Valid()
      modifies db
      ensures db.Valid()
      ensures boardId !in old(db.boards) ==> r == Err(NotFound(BoardNotFound)) && unchanged(db)
      ensures boardId in old(db.boards) ==>
        var b := old(db.boards)[boardId];
        var denied := CheckPermission(old(db.members), b.workspaceId, userId, BoardUpdate);
        if denied.Some? then r == Err(denied.value) && unchanged(db)
        else
          && r == Ok(())
          && db.boards == old(db.boards)[boardId := ApplyBoardUpdate(b, patch)]
          && db.workspaces == old(db.workspaces) && db.members == old(db.members) && db.nextId == old(db.nextId)
          && db.logs == old(db.logs) + [ActivityLog(b.workspaceId, userId, BoardUpdated, BoardChange(boardId, patch))]
    {
      if boardId !in db.boards {
        return Err(NotFound(BoardNotFound));
      }
      var b := db.boards[boardId];
      var denied := CheckPermission(db.members, b.workspaceId, userId, BoardUpdate);
      if denied.Some? {
        return Err(denied.value);
      }
      db.boards := db.boards[boardId := ApplyBoardUpdate(b, patch)];
      db.logs := db.logs + [ActivityLog(b.workspaceId, userId, BoardUpdated, BoardChange(boardId, patch))];
      r := Ok(());
    }
  }
}
