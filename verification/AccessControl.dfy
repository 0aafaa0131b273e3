/**
 Roles, permission grants and the role names users carry: the use cases of the access-control application layer, the
 deploy-time sweep and the role seed, all over one store. A use case either fails and changes nothing or applies a
 list of row changes, some of which leave an audit row. Ids are fresh counters in place of random UUIDs. Limits are
 counted in ten-thousandths, the unit of numeric(18,4).
 */
module AccessControl {
  import opened Prelude
  import C = Calendar

  type Id = nat

  datatype Action = CREATE | READ | UPDATE | DELETE | POST | CANCEL | APPROVE | REJECT

  datatype Scope = ALL | ASSIGNED

  /** Resource codes and the actions each allows; it changes from one deployment to the next. */
  type Catalogue = map<string, set<Action>>

  type NonNegative = x: real | x >= 0.0

  /** A limit as supplied by a client: absent, not a decimal, with a minus sign ("-0" included), or an amount. */
  datatype LimitInput = NoLimit | Unparsable | Negative(magnitude: NonNegative) | Amount(amount: NonNegative)

  datatype Key = Key(resource: string, action: Action)

  datatype GrantInput = GrantInput(key: Key, scope: Scope, limit: LimitInput)

  datatype Role = Role(companyId: Id, name: string, isSystem: bool, approvalLimit: Option<nat>, isUnscoped: bool,
                       version: nat)

  datatype Permission = Permission(roleId: Id, companyId: Id, key: Key, scope: Scope, limit: Option<nat>, version: nat)

  datatype User = User(companyId: Id, roleName: string)

  /** The audit rows: what was recorded, and which fields a patch supplied. */
  datatype Event =
    | RoleCreated(companyId: Id, id: Id, name: string, isUnscoped: bool)
    | RoleUpdated(companyId: Id, id: Id, before: Role, after: Role, limitSet: bool, unscopedSet: bool)
    | RoleDeleted(companyId: Id, id: Id, name: string)
    | UserCreated(companyId: Id, id: Id, roleName: string)
    | UserUpdated(companyId: Id, id: Id, oldRole: string, newRole: string)
    | PermissionCreated(companyId: Id, id: Id, key: Key, scope: Scope)
    | PermissionUpdated(companyId: Id, id: Id, scopeSet: Option<Scope>, limitSet: bool)
    | PermissionDeleted(companyId: Id, id: Id, roleId: Id, key: Key, scope: Scope, swept: bool)

  datatype Db = Db(roles: map<Id, Role>, perms: map<Id, Permission>, users: map<Id, User>, log: seq<Event>, nextId: Id)

  datatype Error =
    | NotFound | OptimisticLockConflict | ValidationError | DuplicateRoleName | SystemRoleImmutable | BlankName
    | InvalidLimit | RoleScopeConflict | AdminLockoutForbidden | RoleInUse | DuplicatePermission | UniqueViolation

  // ---- catalogue, limits and the order on grants ---------------------------------------------------------------

  predicate InCatalogue(cat: Catalogue, k: Key) {
    k.resource in cat && k.action in cat[k.resource]
  }

  predicate IsAdminSuperuser(r: Role) { r.isSystem && r.name == "ADMIN" }

  /** A numeric(18,4) column rounds half up. */
  function StoredLimit(l: LimitInput): Option<nat> {
    if l.Amount? then Some((l.amount + 0.5).Floor) else None
  }

  predicate Acceptable(l: LimitInput) { l.NoLimit? || l.Amount? }

  function LimitValue(l: LimitInput): real
    requires l.Amount? || l.Negative?
  {
    if l.Amount? then l.amount else 0.0 - l.magnitude
  }

  predicate SameLimit(existing: Option<nat>, next: LimitInput) {
    if next.Amount? then existing.Some? && existing.value as real == next.amount else existing.None?
  }

  /** ALL to ASSIGNED, a limit introduced, or a limit lowered. */
  predicate Narrows(p: Permission, scope: Scope, limit: LimitInput) {
    || (p.scope == ALL && scope == ASSIGNED)
    || ((limit.Amount? || limit.Negative?) && (p.limit.None? || LimitValue(limit) < p.limit.value as real))
  }

  // ---- rows ---------------------------------------------------------------------------------------------------

  /** The ids below n that satisfy p, ascending. */
  function Scan(n: nat, p: Id -> bool): (ids: seq<Id>)
    ensures forall i: Id :: i in ids <==> i < n && p(i)
  {
    if n == 0 then [] else Scan(n - 1, p) + if p(n - 1) then [n - 1] else []
  }

  predicate IsGrantOf(db: Db, roleId: Id, companyId: Id, i: Id) {
    i in db.perms && db.perms[i].roleId == roleId && db.perms[i].companyId == companyId
  }

  function GrantIds(db: Db, roleId: Id, companyId: Id): (ids: seq<Id>)
    ensures forall i: Id :: i in ids <==> i < db.nextId && IsGrantOf(db, roleId, companyId, i)
  {
    Scan(db.nextId, (i: Id) => IsGrantOf(db, roleId, companyId, i))
  }

  function FindRole(db: Db, id: Id, companyId: Id): Option<Role> {
    if id in db.roles && db.roles[id].companyId == companyId then Some(db.roles[id]) else None
  }

  predicate IsNamed(db: Db, companyId: Id, name: string, i: Id) {
    i in db.roles && db.roles[i].companyId == companyId && db.roles[i].name == name
  }

  function FindRoleByName(db: Db, companyId: Id, name: string): (r: Option<Id>)
    ensures r.Some? ==> IsNamed(db, companyId, name, r.value)
    ensures r.None? ==> forall i: Id :: i < db.nextId ==> !IsNamed(db, companyId, name, i)
  {
    var ids := Scan(db.nextId, (i: Id) => IsNamed(db, companyId, name, i));
    if ids == [] then
      assert forall i: Id :: i < db.nextId && IsNamed(db, companyId, name, i) ==> i in ids;
      None
    else
      assert ids[0] in ids;
      Some(ids[0])
  }

  predicate HasGrant(db: Db, roleId: Id, companyId: Id, k: Key) {
    exists i :: i in db.perms && IsGrantOf(db, roleId, companyId, i) && db.perms[i].key == k
  }

  predicate HasUsers(db: Db, companyId: Id, name: string) {
    exists u :: u in db.users && db.users[u].companyId == companyId && db.users[u].roleName == name
  }

  // ---- row changes ------------------------------------------------------------------------------------------------

  /** The audit row beside a saved role: none, its creation, or a patch that supplied the limit or the scope. */
  datatype RoleNote = NoRow | CreationRow | PatchRow(limitSet: bool, unscopedSet: bool)

  /** What the repositories' save and delete calls, with the audit record written beside them, do to the store. */
  datatype Change =
    /** Users who hold the role's old name move to its new one. */
    | SaveRole(id: Id, role: Role, note: RoleNote)
    | DropRole(id: Id)
    | AddGrant(grant: Permission, audited: bool)
    | SetGrant(id: Id, scope: Option<Scope>, limit: Option<Option<nat>>, version: nat)
    | DropGrant(id: Id, swept: bool)
    | DropGrantsOf(roleId: Id, companyId: Id)
    | SaveUser(id: Id, user: User)

  function Record(db: Db, e: Event): Db { db.(log := db.log + [e]) }

  function RoleRow(db: Db, id: Id, role: Role, note: RoleNote): Event
    requires !note.NoRow?
  {
    if note.CreationRow? then RoleCreated(role.companyId, id, role.name, role.isUnscoped)
    else RoleUpdated(role.companyId, id, if id in db.roles then db.roles[id] else role, role, note.limitSet,
                     note.unscopedSet)
  }

  function UserRow(db: Db, id: Id, user: User): Event {
    if id in db.users then UserUpdated(user.companyId, id, db.users[id].roleName, user.roleName)
    else UserCreated(user.companyId, id, user.roleName)
  }

  function Deletion(p: Permission, id: Id, swept: bool): Event {
    PermissionDeleted(p.companyId, id, p.roleId, p.key, p.scope, swept)
  }

  function Patched(p: Permission, scope: Option<Scope>, limit: Option<Option<nat>>, version: nat): Permission {
    p.(scope := if scope.Some? then scope.value else p.scope, limit := if limit.Some? then limit.value else p.limit,
       version := version)
  }

  function RenamedUsers(users: map<Id, User>, companyId: Id, oldName: string, newName: string): map<Id, User> {
    map u | u in users ::
      if users[u].companyId == companyId && users[u].roleName == oldName then users[u].(roleName := newName)
      else users[u]
  }

  function Apply(db: Db, w: Change): Db {
    match w
    case SaveRole(id, role, note) =>
      var saved := db.(roles := db.roles[id := role], nextId := Max(db.nextId, id + 1),
                       users := if id !in db.roles then db.users
                                else RenamedUsers(db.users, role.companyId, db.roles[id].name, role.name));
      if note.NoRow? then saved else Record(saved, RoleRow(db, id, role, note))
    case DropRole(id) =>
      if id !in db.roles then db
      else Record(db.(roles := db.roles - {id}), RoleDeleted(db.roles[id].companyId, id, db.roles[id].name))
    case AddGrant(p, audited) =>
      var added := db.(perms := db.perms[db.nextId := p], nextId := db.nextId + 1);
      if audited then Record(added, PermissionCreated(p.companyId, db.nextId, p.key, p.scope)) else added
    case SetGrant(id, scope, limit, version) =>
      if id !in db.perms then db
      else Record(db.(perms := db.perms[id := Patched(db.perms[id], scope, limit, version)]),
                  PermissionUpdated(db.perms[id].companyId, id, scope, limit.Some?))
    case DropGrant(id, swept) =>
      if id !in db.perms then db
      else Record(db.(perms := db.perms - {id}), Deletion(db.perms[id], id, swept))
    case DropGrantsOf(roleId, companyId) =>
      db.(perms := map i | i in db.perms && !IsGrantOf(db, roleId, companyId, i) :: db.perms[i])
    case SaveUser(id, user) =>
      Record(db.(users := db.users[id := user], nextId := Max(db.nextId, id + 1)), UserRow(db, id, user))
  }

  function Exec(db: Db, ws: seq<Change>): Db
    decreases ws
  {
    if ws == [] then db else Exec(Apply(db, ws[0]), ws[1..])
  }

  // ---- role use cases -----------------------------------------------------------------------------------------------

  predicate AllInCatalogue(cat: Catalogue, ps: seq<GrantInput>) {
    forall i :: 0 <= i < |ps| ==> InCatalogue(cat, ps[i].key)
  }

  predicate HasKey(ps: seq<GrantInput>, k: Key) {
    exists i :: 0 <= i < |ps| && ps[i].key == k
  }

  predicate DistinctKeys(ps: seq<GrantInput>) {
    forall i, j :: 0 <= i < j < |ps| ==> ps[i].key != ps[j].key
  }

  function NewGrant(roleId: Id, companyId: Id, p: GrantInput): Permission {
    Permission(roleId, companyId, p.key, p.scope, StoredLimit(p.limit), 1)
  }

  /** What the first item that cannot be saved fails with: its limit, or the unique key (role, resource, action). */
  function FirstGrantError(ps: seq<GrantInput>, i: nat): Option<Error>
    requires i <= |ps|
    decreases |ps| - i
  {
    if i == |ps| then None
    else if !Acceptable(ps[i].limit) then Some(InvalidLimit)
    else if HasKey(ps[..i], ps[i].key) then Some(UniqueViolation)
    else FirstGrantError(ps, i + 1)
  }

  function Additions(roleId: Id, companyId: Id, ps: seq<GrantInput>, audited: bool): seq<Change> {
    if ps == [] then []
    else [AddGrant(NewGrant(roleId, companyId, ps[0]), audited)] + Additions(roleId, companyId, ps[1..], audited)
  }

  function CreateRole(db: Db, cat: Catalogue, companyId: Id, name: string, limit: LimitInput, isUnscoped: bool,
          ps: seq<GrantInput>)
    : Result<seq<Change>, Error>
  {
    if FindRoleByName(db, companyId, name).Some? then Err(DuplicateRoleName)
    else if !AllInCatalogue(cat, ps) then Err(ValidationError)
    else if !Acceptable(limit) then Err(InvalidLimit)
    else if C.Trim(name) == "" then Err(BlankName)
    else if FirstGrantError(ps, 0).Some? then Err(FirstGrantError(ps, 0).value)
    else Ok([SaveRole(db.nextId, Role(companyId, name, false, StoredLimit(limit), isUnscoped, 1), CreationRow)]
            + Additions(db.nextId, companyId, ps, false))
  }

  function PatchRole(db: Db, id: Id, companyId: Id, name: Option<string>, limit: Option<LimitInput>,
          isUnscoped: Option<bool>, version: nat)
    : Result<seq<Change>, Error>
  {
    match FindRole(db, id, companyId)
    case None => Err(NotFound)
    case Some(role) =>
      var renamed := name.Some? && name.value != role.name;
      if role.version != version then Err(OptimisticLockConflict)
      else if renamed && FindRoleByName(db, companyId, name.value).Some? then Err(DuplicateRoleName)
      else if renamed && role.isSystem then Err(SystemRoleImmutable)
      else if renamed && C.Trim(name.value) == "" then Err(BlankName)
      else if limit.Some? && !Acceptable(limit.value) then Err(InvalidLimit)
      else Ok([SaveRole(id, role.(name := if renamed then name.value else role.name,
                                  approvalLimit := if limit.Some? then StoredLimit(limit.value) else role.approvalLimit,
                                  isUnscoped := if isUnscoped.Some? then isUnscoped.value else role.isUnscoped,
                                  version := role.version + 1),
                       PatchRow(limit.Some?, isUnscoped.Some?))])
  }

  function DeleteRole(db: Db, id: Id, companyId: Id): Result<seq<Change>, Error> {
    match FindRole(db, id, companyId)
    case None => Err(NotFound)
    case Some(role) =>
      if role.isSystem then Err(SystemRoleImmutable)
      else if HasUsers(db, companyId, role.name) then Err(RoleInUse)
      else Ok([DropGrantsOf(id, companyId), DropRole(id)])
  }

  // ---- the batch replace ------------------------------------------------------------------------------------------

  predicate ValidPayload(cat: Catalogue, ps: seq<GrantInput>) {
    AllInCatalogue(cat, ps) && DistinctKeys(ps) && forall i :: 0 <= i < |ps| ==> Acceptable(ps[i].limit)
  }

  /** new Map(current.map(pm => [key, pm])): a later row overwrites an earlier one with the same key. */
  function CurrentByKey(db: Db, ids: seq<Id>): map<Key, Id>
    requires forall i <- ids :: i in db.perms
  {
    if ids == [] then map[]
    else
      var last := ids[|ids| - 1];
      CurrentByKey(db, ids[..|ids| - 1])[db.perms[last].key := last]
  }

  /** A catalogue-valid grant that the list drops or narrows. */
  predicate LosesGround(db: Db, cat: Catalogue, ids: seq<Id>, ps: seq<GrantInput>)
    requires forall i <- ids :: i in db.perms
  {
    exists i <- ids :: InCatalogue(cat, db.perms[i].key) && !StandsIn(db.perms[i], ps)
  }

  /** The list holds the grant's key without narrowing it. */
  predicate StandsIn(p: Permission, ps: seq<GrantInput>) {
    HasKey(ps, p.key) && forall j :: 0 <= j < |ps| && ps[j].key == p.key ==> !Narrows(p, ps[j].scope, ps[j].limit)
  }

  function Revocations(db: Db, ids: seq<Id>, ps: seq<GrantInput>): seq<Change>
    requires forall i <- ids :: i in db.perms
  {
    if ids == [] then []
    else (if HasKey(ps, db.perms[ids[0]].key) then [] else [DropGrant(ids[0], false)]) + Revocations(db, ids[1..], ps)
  }

  predicate Differs(p: Permission, next: GrantInput) {
    p.scope != next.scope || !SameLimit(p.limit, next.limit)
  }

  function Upsert(db: Db, current: map<Key, Id>, roleId: Id, companyId: Id, p: GrantInput): seq<Change>
    requires forall k <- current :: current[k] in db.perms
  {
    if p.key !in current then [AddGrant(NewGrant(roleId, companyId, p), true)]
    else
      var existing := db.perms[current[p.key]];
      if Differs(existing, p)
      then [SetGrant(current[p.key], Some(p.scope), Some(StoredLimit(p.limit)), existing.version)]
      else []
  }

  function Upserts(db: Db, current: map<Key, Id>, roleId: Id, companyId: Id, ps: seq<GrantInput>): seq<Change>
    requires forall k <- current :: current[k] in db.perms
  {
    if ps == [] then []
    else Upsert(db, current, roleId, companyId, ps[0]) + Upserts(db, current, roleId, companyId, ps[1..])
  }

  lemma {:induction false} CurrentFacts(db: Db, ids: seq<Id>)
    requires forall i <- ids :: i in db.perms
    ensures forall k <- CurrentByKey(db, ids) ::
            CurrentByKey(db, ids)[k] in ids && db.perms[CurrentByKey(db, ids)[k]].key == k
    ensures forall i <- ids :: db.perms[i].key in CurrentByKey(db, ids)
  {
    if ids != [] {
      var front := ids[..|ids| - 1];
      CurrentFacts(db, front);
      forall i | i in ids ensures db.perms[i].key in CurrentByKey(db, ids) {
        if i != ids[|ids| - 1] { assert i in front; }
      }
    }
  }

  function ReplacePermissions(db: Db, cat: Catalogue, id: Id, companyId: Id, version: nat,
          ps: seq<GrantInput>): Result<seq<Change>, Error> {
    match FindRole(db, id, companyId)
    case None => Err(NotFound)
    case Some(role) =>
      if role.version != version then Err(OptimisticLockConflict)
      else if !ValidPayload(cat, ps) then Err(ValidationError)
      else if role.isUnscoped && exists i :: 0 <= i < |ps| && ps[i].scope == ASSIGNED then Err(RoleScopeConflict)
      else
        var ids := GrantIds(db, id, companyId);
        if IsAdminSuperuser(role) && LosesGround(db, cat, ids, ps) then Err(AdminLockoutForbidden)
        else
          CurrentFacts(db, ids);
          Ok(Revocations(db, ids, ps) + Upserts(db, CurrentByKey(db, ids), id, companyId, ps)
             + [SaveRole(id, role.(version := role.version + 1), NoRow)])
  }

  // ---- single grants ----------------------------------------------------------------------------------------------

  function CreatePermission(db: Db, cat: Catalogue, companyId: Id, roleId: Id, p: GrantInput): Result<seq<Change>,
          Error> {
    if FindRole(db, roleId, companyId).None? then Err(NotFound)
    else if !InCatalogue(cat, p.key) then Err(ValidationError)
    else if HasGrant(db, roleId, companyId, p.key) then Err(DuplicatePermission)
    else if !Acceptable(p.limit) then Err(InvalidLimit)
    else Ok([AddGrant(NewGrant(roleId, companyId, p), true)])
  }

  predicate Protected(db: Db, cat: Catalogue, p: Permission, companyId: Id) {
    var role := FindRole(db, p.roleId, companyId);
    role.Some? && IsAdminSuperuser(role.value) && InCatalogue(cat, p.key)
  }

  /** The grant as the lockout check sees it: fields that are not supplied keep their value. */
  predicate PatchNarrows(p: Permission, scope: Option<Scope>, limit: Option<LimitInput>) {
    var next := if limit.Some? then limit.value else if p.limit.Some? then Amount(p.limit.value as real) else NoLimit;
    Narrows(p, if scope.Some? then scope.value else p.scope, next)
  }

  function PatchPermission(db: Db, cat: Catalogue, id: Id, companyId: Id, scope: Option<Scope>,
          limit: Option<LimitInput>, version: nat)
    : Result<seq<Change>, Error>
  {
    if id !in db.perms || db.perms[id].companyId != companyId then Err(NotFound)
    else
      var p := db.perms[id];
      if p.version != version then Err(OptimisticLockConflict)
      else if limit == Some(Unparsable) then Err(InvalidLimit)
      else if Protected(db, cat, p, companyId) && PatchNarrows(p, scope, limit) then Err(AdminLockoutForbidden)
      else if limit.Some? && limit.value.Negative? then Err(InvalidLimit)
      else Ok([SetGrant(id, scope, if limit.Some? then Some(StoredLimit(limit.value)) else None, p.version + 1)])
  }

  function DeletePermission(db: Db, cat: Catalogue, id: Id, companyId: Id): Result<seq<Change>, Error> {
    if id !in db.perms || db.perms[id].companyId != companyId then Err(NotFound)
    else if Protected(db, cat, db.perms[id], companyId) then Err(AdminLockoutForbidden)
    else Ok([DropGrant(id, false)])
  }

  // ---- users ------------------------------------------------------------------------------------------------------

  function CreateUser(db: Db, companyId: Id, roleId: Id): Result<seq<Change>, Error> {
    match FindRole(db, roleId, companyId)
    case None => Err(NotFound)
    case Some(role) => Ok([SaveUser(db.nextId, User(companyId, role.name))])
  }

  /** A role id the company does not have leaves the role as it was. */
  function PatchUser(db: Db, companyId: Id, userId: Id, roleId: Option<Id>,
          versionMatches: bool): Result<seq<Change>, Error> {
    if userId !in db.users || db.users[userId].companyId != companyId then Err(NotFound)
    else if !versionMatches then Err(OptimisticLockConflict)
    else
      var role := if roleId.Some? then FindRole(db, roleId.value, companyId) else None;
      Ok([SaveUser(userId,
                   db.users[userId].(roleName := if role.Some? then role.value.name else db.users[userId].roleName))])
  }

  // ---- sweep and seed ---------------------------------------------------------------------------------------------

  function Drops(ids: seq<Id>): seq<Change> {
    if ids == [] then [] else [DropGrant(ids[0], true)] + Drops(ids[1..])
  }

  predicate IsOrphan(db: Db, cat: Catalogue, companyId: Id, i: Id) {
    i in db.perms && db.perms[i].companyId == companyId && !InCatalogue(cat, db.perms[i].key)
  }

  function OrphanIds(db: Db, cat: Catalogue, companyId: Id): (ids: seq<Id>)
    ensures forall i: Id :: i in ids <==> i < db.nextId && IsOrphan(db, cat, companyId, i)
  {
    Scan(db.nextId, (i: Id) => IsOrphan(db, cat, companyId, i))
  }

  datatype RoleSeed = RoleSeed(name: string, isUnscoped: bool, approvalLimit: Option<nat>, scope: Scope,
                               grants: seq<Key>)

  /** The grants still missing when their turn comes. */
  function SeedGrants(db: Db, roleId: Id, companyId: Id, scope: Scope, keys: seq<Key>): seq<Change>
    decreases keys
  {
    if keys == [] then []
    else if exists i :: i in db.perms && db.perms[i].roleId == roleId && db.perms[i].key == keys[0] then
      SeedGrants(db, roleId, companyId, scope, keys[1..])
    else
      var w := AddGrant(Permission(roleId, companyId, keys[0], scope, None, 1), false);
      [w] + SeedGrants(Apply(db, w), roleId, companyId, scope, keys[1..])
  }

  /** The built-in role, created or reset; an existing one keeps its id, version and grants. */
  function SeedRole(db: Db, companyId: Id, seed: RoleSeed): Change {
    match FindRoleByName(db, companyId, seed.name)
    case Some(id) =>
      SaveRole(id, db.roles[id].(isSystem := true, isUnscoped := seed.isUnscoped, approvalLimit := seed.approvalLimit),
               NoRow)
    case None =>
      SaveRole(db.nextId, Role(companyId, seed.name, true, seed.approvalLimit, seed.isUnscoped, 1), NoRow)
  }

  function SeedAll(db: Db, companyId: Id, seeds: seq<RoleSeed>): seq<Change>
    decreases seeds
  {
    if seeds == [] then []
    else
      var w := SeedRole(db, companyId, seeds[0]);
      var db1 := Apply(db, w);
      var gs := SeedGrants(db1, w.id, companyId, seeds[0].scope, seeds[0].grants);
      [w] + gs + SeedAll(Exec(db1, gs), companyId, seeds[1..])
  }

  // ---- requests ---------------------------------------------------------------------------------------------------

  datatype Request =
    | CreateRoleRequest(companyId: Id, name: string, limit: LimitInput, isUnscoped: bool, grants: seq<GrantInput>)
    | PatchRoleRequest(companyId: Id, id: Id, newName: Option<string>, newLimit: Option<LimitInput>,
                       newUnscoped: Option<bool>, version: nat)
    | DeleteRoleRequest(companyId: Id, id: Id)
    | ReplaceRequest(companyId: Id, id: Id, version: nat, grants: seq<GrantInput>)
    | CreatePermissionRequest(companyId: Id, roleId: Id, grant: GrantInput)
    | PatchPermissionRequest(companyId: Id, id: Id, scope: Option<Scope>, newLimit: Option<LimitInput>, version: nat)
    | DeletePermissionRequest(companyId: Id, id: Id)
    | CreateUserRequest(companyId: Id, roleId: Id)
    | PatchUserRequest(companyId: Id, userId: Id, newRole: Option<Id>, versionMatches: bool)
    | SweepRequest(companyId: Id)
    | SeedRequest(companyId: Id, seeds: seq<RoleSeed>)

  function Plan(db: Db, cat: Catalogue, r: Request): Result<seq<Change>, Error> {
    match r
    case CreateRoleRequest(co, name, limit, unscoped, ps) => CreateRole(db, cat, co, name, limit, unscoped, ps)
    case PatchRoleRequest(co, id, name, limit, unscoped, version) =>
      PatchRole(db, id, co, name, limit, unscoped, version)
    case DeleteRoleRequest(co, id) => DeleteRole(db, id, co)
    case ReplaceRequest(co, id, version, ps) => ReplacePermissions(db, cat, id, co, version, ps)
    case CreatePermissionRequest(co, roleId, p) => CreatePermission(db, cat, co, roleId, p)
    case PatchPermissionRequest(co, id, scope, limit, version) =>
      PatchPermission(db, cat, id, co, scope, limit, version)
    case DeletePermissionRequest(co, id) => DeletePermission(db, cat, id, co)
    case CreateUserRequest(co, roleId) => CreateUser(db, co, roleId)
    case PatchUserRequest(co, id, roleId, ok) => PatchUser(db, co, id, roleId, ok)
    case SweepRequest(co) => Ok(Drops(OrphanIds(db, cat, co)))
    case SeedRequest(co, seeds) => Ok(SeedAll(db, co, seeds))
  }

  /** uow.run: all of the changes, or none when the use case throws. */
  function Step(db: Db, cat: Catalogue, r: Request): Db {
    var plan := Plan(db, cat, r);
    if plan.Ok? then Exec(db, plan.value) else db
  }

  /** A request, and the catalogue of the deployment that served it. */
  datatype Call = Call(cat: Catalogue, request: Request)

  function Run(db: Db, cs: seq<Call>): Db
    decreases cs
  {
    if cs == [] then db else Run(Step(db, cs[0].cat, cs[0].request), cs[1..])
  }
}
