/**
 * The workspace-level arithmetic (src/lib/security/rbac.ts): role defaults, a
 * person's own levels and the grants of their groups, highest wins.
 *
 * Everything is stated for an arbitrary service catalog, so no result depends on
 * which services happen to be registered.
 */
module Rbac {
  import opened Options
  import opened Levels

  datatype ServiceDef = ServiceDef(id: string, adminService: bool, defaultMemberLevel: Option<Level>)

  type Catalog = c: seq<ServiceDef> | c != [] witness [ServiceDef("models", false, None)]

  predicate IsService(cat: Catalog, service: string) {
    exists i :: 0 <= i < |cat| && cat[i].id == service
  }

  /** The first definition with this id; an unknown id falls back to the first of the catalog. */
  function Definition(cat: Catalog, service: string): ServiceDef {
    var i := IndexOf(cat, service, 0);
    if i < |cat| then cat[i] else cat[0]
  }

  function IndexOf(cat: Catalog, service: string, from: nat): (i: nat)
    requires from <= |cat|
    ensures from <= i <= |cat|
    ensures i < |cat| ==> cat[i].id == service
    ensures forall j :: from <= j < i ==> cat[j].id != service
    decreases |cat| - from
  {
    if from == |cat| || cat[from].id == service then from else IndexOf(cat, service, from + 1)
  }

  /** A stored permission value: anything that is not an object counts as no entry at all. */
  datatype Stored = NotAnObject | Object(entries: map<string, string>)

  type LevelMap = map<string, Level>

  function LevelOfText(text: string): Option<Level> {
    if text == "none" then Some(NoAccess)
    else if text == "read" then Some(CanRead)
    else if text == "write" then Some(CanWrite)
    else if text == "admin" then Some(CanAdmin)
    else None
  }

  /** Keeps the entries that name a known service and a known level. */
  function Normalize(cat: Catalog, stored: Stored): (m: LevelMap)
    ensures forall s :: s in m ==> IsService(cat, s)
  {
    match stored
    case NotAnObject => map[]
    case Object(entries) =>
      map s | s in entries && IsService(cat, s) && LevelOfText(entries[s]).Some?
        :: LevelOfText(entries[s]).value
  }

  function LookUp(m: LevelMap, service: string): Option<Level> {
    if service in m then Some(m[service]) else None
  }

  function RequiredByMethod(cat: Catalog, verb: Method, service: string): Level {
    if verb.Get? then CanRead
    else if Definition(cat, service).adminService then CanAdmin
    else CanWrite
  }

  /** `check.level ?? getRequiredPermissionLevel(check.method, service)`. */
  function Required(cat: Catalog, check: Check, service: string): Level {
    match ExplicitLevel(check)
    case Some(level) => level
    case None => RequiredByMethod(cat, MethodOf(check), service)
  }

  /** A person, and equally the grant of a group: a role and explicit levels. */
  datatype Grant = Grant(role: string, levels: Stored)

  predicate IsPrivileged(role: string) {
    role == "owner" || role == "admin"
  }

  function RoleDefault(cat: Catalog, role: string, service: string): Level {
    if IsPrivileged(role) then CanAdmin
    else if Definition(cat, service).adminService then NoAccess
    else if role != "project_admin" && role != "user" then NoAccess
    else match Definition(cat, service).defaultMemberLevel
         case Some(level) => level
         case None => CanWrite
  }

  /** `getEffectiveServicePermission`: an explicit level replaces the role default, except for the owner. */
  function OwnLevel(cat: Catalog, who: Grant, service: string): Level {
    if who.role == "owner" then CanAdmin
    else match LookUp(Normalize(cat, who.levels), service)
         case Some(level) => level
         case None => RoleDefault(cat, who.role, service)
  }

  /** The entry stored for the service, if it is one of the four level names. */
  function StoredText(cat: Catalog, stored: Stored, service: string): Option<string> {
    if stored.Object? && service in stored.entries && IsService(cat, service)
       && stored.entries[service] in {"none", "read", "write", "admin"}
    then Some(stored.entries[service])
    else None
  }

  /** A person's own level, from the role and the stored text as they stand in the database. */
  lemma OwnLevelFromText(cat: Catalog, who: Grant, service: string)
    ensures var level, text := OwnLevel(cat, who, service), StoredText(cat, who.levels, service);
            && (who.role == "owner" ==> level == CanAdmin)
            && (who.role != "owner" ==>
                  && (text == Some("none") ==> level == NoAccess)
                  && (text == Some("read") ==> level == CanRead)
                  && (text == Some("write") ==> level == CanWrite)
                  && (text == Some("admin") ==> level == CanAdmin))
            && (text.None? && who.role == "admin" ==> level == CanAdmin)
            && (text.None? && who.role in {"project_admin", "user"} ==>
                  level == if Definition(cat, service).adminService then NoAccess
                           else if Definition(cat, service).defaultMemberLevel == None then CanWrite
                           else Definition(cat, service).defaultMemberLevel.value)
            && (text.None? && who.role !in {"owner", "admin", "project_admin", "user"} ==> level == NoAccess)
  {
  }

  /** The definition that counts is the first one registered under the id. */
  lemma DefinitionIsFirst(cat: Catalog, service: string, i: nat)
    requires i < |cat| && cat[i].id == service && forall j :: 0 <= j < i ==> cat[j].id != service
    ensures Definition(cat, service) == cat[i]
  {
  }

  /** `getEffectiveServicePermissionWithGroups`: own level, raised by every group grant. */
  function WorkspaceLevel(cat: Catalog, user: Grant, grants: seq<Grant>, service: string): Level
    decreases |grants|
  {
    if grants == [] then OwnLevel(cat, user, service)
    else
      MaxLevel(WorkspaceLevel(cat, user, grants[..|grants| - 1], service),
               OwnLevel(cat, grants[|grants| - 1], service))
  }

  /** The source's loop, with its early exit once the level is already the highest. */
  method ComputeWorkspaceLevel(cat: Catalog, user: Grant, grants: seq<Grant>, service: string) returns (best: Level)
    ensures best == WorkspaceLevel(cat, user, grants, service)
  {
    best := OwnLevel(cat, user, service);
    if Rank(best) == Rank(CanAdmin) {
      WorkspaceLevelIsHighest(cat, user, grants, service);
      return;
    }
    for i := 0 to |grants|
      invariant best == WorkspaceLevel(cat, user, grants[..i], service)
    {
      assert grants[..i + 1][..i] == grants[..i];
      best := MaxLevel(best, OwnLevel(cat, grants[i], service));
    }
    assert grants[..|grants|] == grants;
  }

  /** Highest wins: the level bounds the own level and every grant, and is one of them. */
  lemma {:induction false} WorkspaceLevelIsHighest(cat: Catalog, user: Grant, grants: seq<Grant>, service: string)
    ensures Rank(WorkspaceLevel(cat, user, grants, service)) >= Rank(OwnLevel(cat, user, service))
    ensures forall g :: g in grants ==>
              Rank(WorkspaceLevel(cat, user, grants, service)) >= Rank(OwnLevel(cat, g, service))
    ensures WorkspaceLevel(cat, user, grants, service) == OwnLevel(cat, user, service)
            || exists g :: g in grants && WorkspaceLevel(cat, user, grants, service) == OwnLevel(cat, g, service)
    decreases |grants|
  {
    if grants != [] {
      var rest, last := grants[..|grants| - 1], grants[|grants| - 1];
      assert grants == rest + [last];
      WorkspaceLevelIsHighest(cat, user, rest, service);
    }
  }

  /** A service absent from a token scope is not granted. */
  function ScopeLevel(cat: Catalog, scope: Stored, service: string): Level {
    match LookUp(Normalize(cat, scope), service) case Some(level) => level case None => NoAccess
  }

  /** The level a token scope leaves. */
  function Capped(cat: Catalog, level: Level, scope: Option<Stored>, service: string): Level {
    match scope
    case None => level
    case Some(stored) => MinLevel(level, ScopeLevel(cat, stored, service))
  }

  /** `authorizeService(...).allowed`. */
  predicate Authorized(cat: Catalog, user: Grant, grants: seq<Grant>, scope: Option<Stored>, check: Check,
                       service: string) {
    Rank(Capped(cat, WorkspaceLevel(cat, user, grants, service), scope, service))
      >= Rank(Required(cat, check, service))
  }

  /** The answers one level gives to the three checks. */
  function AnswersOfLevel(cat: Catalog, level: Level, service: string): Checks {
    Checks(Rank(level) >= Rank(Required(cat, ReadCheck, service)),
           Rank(level) >= Rank(Required(cat, WriteCheck, service)),
           Rank(level) >= Rank(Required(cat, AdminCheck, service)))
  }

  function AuthorizedChecks(cat: Catalog, user: Grant, grants: seq<Grant>, scope: Option<Stored>,
                            service: string): Checks {
    AnswersOfLevel(cat, Capped(cat, WorkspaceLevel(cat, user, grants, service), scope, service), service)
  }

  /** The loop over the checks that oracle.ts and before.ts share in shape. */
  method ChecksOfLevel(cat: Catalog, level: Level, service: string) returns (out: Checks)
    ensures out == AnswersOfLevel(cat, level, service)
  {
    out := NO_CHECKS;
    for i := 0 to |CHECKS|
      invariant forall j :: 0 <= j < i ==> out.At(CHECKS[j]) == (Rank(level) >= Rank(Required(cat, CHECKS[j], service)))
    {
      out := out.With(CHECKS[i], Rank(level) >= Rank(Required(cat, CHECKS[i], service)));
    }
    assert out.At(CHECKS[0]) == out.read && out.At(CHECKS[1]) == out.write && out.At(CHECKS[2]) == out.admin;
  }
}
