/** What a successful edit leaves in the tables, and what it leaves alone. */
module AccessEdits {
  import opened Prelude
  import opened AccessControl
  import opened AccessInvariants
  import opened AccessReplace

  /** All grant rows but the one with the id are the same. */
  ghost predicate OnlyGrantTouched(db: Db, db': Db, id: Id) {
    && (forall i :: i != id ==> (i in db.perms <==> i in db'.perms))
    && (forall i <- db.perms :: i != id ==> db'.perms[i] == db.perms[i])
    && db'.roles == db.roles && db'.users == db.users && |db'.log| == |db.log| + 1
  }

  /** The supplied value, stored, or the one that was there. */
  function Supplied<T>(supplied: Option<T>, was: T): T { if supplied.Some? then supplied.value else was }

  /** A new grant as asked for, and nothing else. */
  ghost predicate GrantCreated(db: Db, db': Db, roleId: Id, g: GrantInput) {
    && db.nextId !in db.perms && db.nextId in db'.perms && Matches(db'.perms[db.nextId], roleId, g)
    && db'.perms[db.nextId].version == 1 && OnlyGrantTouched(db, db', db.nextId)
  }

  /** The grant has the supplied fields and a version one up, and nothing else changed. */
  ghost predicate GrantPatched(db: Db, db': Db, id: Id, scope: Option<Scope>, limit: Option<LimitInput>, version: nat) {
    && id in db.perms && id in db'.perms && OnlyGrantTouched(db, db', id)
    && db'.perms[id].roleId == db.perms[id].roleId && db'.perms[id].key == db.perms[id].key
    && db'.perms[id].scope == Supplied(scope, db.perms[id].scope)
    && db'.perms[id].limit == (if limit.Some? then StoredLimit(limit.value) else db.perms[id].limit)
    && db.perms[id].version == version && db'.perms[id].version == version + 1
  }

  ghost predicate GrantDeleted(db: Db, db': Db, id: Id) {
    id in db.perms && id !in db'.perms && OnlyGrantTouched(db, db', id)
  }

  lemma PlannedEdits(db: Db, cat: Catalogue, r: Request)
    requires IdsBelow(db) && Plan(db, cat, r).Ok? && Plan(db, cat, r).value != []
    ensures (var w := Plan(db, cat, r).value[0];
             && (r.CreatePermissionRequest? ==> GrantCreated(db, Apply(db, w), r.roleId, r.grant))
             && (r.PatchPermissionRequest? ==> GrantPatched(db, Apply(db, w), r.id, r.scope, r.newLimit, r.version))
             && (r.DeletePermissionRequest? ==> GrantDeleted(db, Apply(db, w), r.id)))
  {
  }

  /** Single grant edits touch exactly one grant, say what was asked of it, and write exactly one audit row. */
  lemma GrantEditsAreExact(db: Db, cat: Catalogue, r: Request)
    requires Inv(db) && Plan(db, cat, r).Ok?
    ensures r.CreatePermissionRequest? ==> GrantCreated(db, Step(db, cat, r), r.roleId, r.grant)
    ensures r.PatchPermissionRequest? ==> GrantPatched(db, Step(db, cat, r), r.id, r.scope, r.newLimit, r.version)
    ensures r.DeletePermissionRequest? ==> GrantDeleted(db, Step(db, cat, r), r.id)
  {
    if r.CreatePermissionRequest? || r.PatchPermissionRequest? || r.DeletePermissionRequest? {
      var w := Plan(db, cat, r).value[0];
      ExecOne(db, w);
      PlannedEdits(db, cat, r);
    }
  }

  /** Exactly the company's users who carried the old name carry the new one. */
  ghost predicate UsersFollow(db: Db, db': Db, companyId: Id, oldName: string, newName: string) {
    && db'.users.Keys == db.users.Keys
    && forall u <- db.users ::
         db'.users[u] == (if db.users[u] == User(companyId, oldName) then User(companyId, newName) else db.users[u])
  }

  /** All role rows but the one with the id, and all grants, are the same. */
  ghost predicate OnlyRoleTouched(db: Db, db': Db, id: Id) {
    && (forall i :: i != id ==> (i in db.roles <==> i in db'.roles))
    && (forall i <- db.roles :: i != id ==> db'.roles[i] == db.roles[i])
    && db'.perms == db.perms
  }

  /** The role has the supplied fields and a version one up, and its users its new name; nothing else changed. */
  ghost predicate RoleEdited(db: Db, db': Db, companyId: Id, id: Id, name: Option<string>, limit: Option<LimitInput>,
          unscoped: Option<bool>, version: nat)
  {
    && id in db.roles && id in db'.roles && OnlyRoleTouched(db, db', id)
    && db'.roles[id].name == Supplied(name, db.roles[id].name)
    && (db'.roles[id].name != db.roles[id].name ==> !db.roles[id].isSystem)
    && db'.roles[id].isSystem == db.roles[id].isSystem && db'.roles[id].companyId == companyId
    && db'.roles[id].approvalLimit == (if limit.Some? then StoredLimit(limit.value) else db.roles[id].approvalLimit)
    && db'.roles[id].isUnscoped == Supplied(unscoped, db.roles[id].isUnscoped)
    && db.roles[id].version == version && db'.roles[id].version == version + 1
    && UsersFollow(db, db', companyId, db.roles[id].name, db'.roles[id].name)
  }

  /** A role edit changes the supplied fields of that role and its version, and the names its users carry. */
  lemma RoleEditIsExact(db: Db, cat: Catalogue, r: Request)
    requires Inv(db) && r.PatchRoleRequest? && Plan(db, cat, r).Ok?
    ensures RoleEdited(db, Step(db, cat, r), r.companyId, r.id, r.newName, r.newLimit, r.newUnscoped, r.version)
  {
    ExecOne(db, Plan(db, cat, r).value[0]);
  }

  /**
   A deleted role was custom and carried by nobody; its grants go with it, and no other role, grant or user changes.
   */
  ghost predicate RoleGone(db: Db, db': Db, companyId: Id, id: Id) {
    && id in db.roles && !db.roles[id].isSystem && db'.roles == db.roles - {id} && db'.users == db.users
    && (forall u <- db.users :: db.users[u] != User(companyId, db.roles[id].name))
    && (forall i :: i in db'.perms <==> i in db.perms && db.perms[i].roleId != id)
    && (forall i <- db'.perms :: db'.perms[i] == db.perms[i])
  }

  lemma RoleDeletionIsExact(db: Db, cat: Catalogue, r: Request)
    requires Inv(db) && r.DeleteRoleRequest? && Plan(db, cat, r).Ok?
    ensures RoleGone(db, Step(db, cat, r), r.companyId, r.id)
  {
    var ws := Plan(db, cat, r).value;
    assert ws == [ws[0]] + [ws[1]];
    ExecOne(db, ws[0]);
    ExecOne(Apply(db, ws[0]), ws[1]);
    ExecConcat(db, [ws[0]], [ws[1]]);
    forall i | i in db.perms
      ensures IsGrantOf(db, r.id, r.companyId, i) <==> db.perms[i].roleId == r.id
    {
      assert OwnedAt(db, i);
    }
  }

  /** One user row is written, with the role name; roles, grants and other users are the same. */
  ghost predicate UserSaved(db: Db, db': Db, companyId: Id, id: Id, roleName: string) {
    && db'.users == db.users[id := User(companyId, roleName)]
    && db'.roles == db.roles && db'.perms == db.perms && |db'.log| == |db.log| + 1
  }

  /** The name of the requested role, where the company has it, and otherwise the one carried so far. */
  function NextRoleName(db: Db, companyId: Id, roleId: Option<Id>, was: string): string {
    if roleId.Some? && OwnRole(db, roleId.value, companyId) then db.roles[roleId.value].name else was
  }

  /** A created user is new and carries the role's name; a patched one moves to the requested role, if there is one. */
  lemma UserEditsAreExact(db: Db, cat: Catalogue, r: Request)
    requires Inv(db) && Plan(db, cat, r).Ok?
    ensures r.CreateUserRequest? ==>
              && db.nextId !in db.users && OwnRole(db, r.roleId, r.companyId)
              && UserSaved(db, Step(db, cat, r), r.companyId, db.nextId, db.roles[r.roleId].name)
    ensures r.PatchUserRequest? ==>
              && r.userId in db.users && db.users[r.userId].companyId == r.companyId
              && UserSaved(db, Step(db, cat, r), r.companyId, r.userId,
                           NextRoleName(db, r.companyId, r.newRole, db.users[r.userId].roleName))
  {
    if r.CreateUserRequest? || r.PatchUserRequest? { ExecOne(db, Plan(db, cat, r).value[0]); }
  }
}
