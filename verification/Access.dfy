/**
 * Which project a member can open, before and after the upgrade
 * (scripts/iam/preflight/access.ts).
 */
module Access {
  import opened Projects
  import opened Rbac
  import opened Oracle

  datatype Rows = Rows(legacy: seq<string>, direct: seq<string>, group: seq<string>)

  function Accessible(rows: Rows, includeGroups: bool): seq<string> {
    Distinct(rows.legacy + rows.direct + if includeGroups then rows.group else [])
  }

  method AccessibleProjectIds(rows: Rows, includeGroups: bool) returns (out: seq<string>)
    ensures out == Accessible(rows, includeGroups)
  {
    out := DistinctBySet(rows.legacy + rows.direct + if includeGroups then rows.group else []);
  }

  datatype Outcome = Opens(projectId: string) | Refused(status: int, error: string)

  const NO_PROJECT := Refused(403, "No project assigned")
  const FORBIDDEN := Refused(403, "Forbidden")
  const NOT_FOUND := Refused(404, "Project not found")

  /** The requested project, else the default one, when accessible; otherwise the first accessible one. */
  function Resolve(accessible: seq<string>, cookie: string, defaultProject: string, existing: set<string>): Outcome {
    if accessible == [] then NO_PROJECT
    else
      var p := Landing(accessible, cookie, defaultProject);
      if p == "" then FORBIDDEN else if p !in existing then NOT_FOUND else Opens(p)
  }

  function Landing(accessible: seq<string>, cookie: string, defaultProject: string): string
    requires accessible != []
  {
    var wanted := Wanted(cookie, defaultProject);
    if wanted == "" || wanted !in accessible then accessible[0] else wanted
  }

  function Wanted(cookie: string, defaultProject: string): string {
    if cookie != "" then cookie else defaultProject
  }

  datatype Change = SameAccess | GainsAccess | LosesAccess | OtherProject | OtherResult

  function Compare(before: Outcome, after: Outcome): Change {
    if before.Opens? then
      if !after.Opens? then LosesAccess
      else if before.projectId == after.projectId then SameAccess
      else OtherProject
    else if after.Opens? then GainsAccess
    else if before.status == after.status && before.error == after.error then SameAccess
    else OtherResult
  }

  function ChangeOf(rows: Rows, cookie: string, defaultProject: string, existing: set<string>): Change {
    Compare(Resolve(Accessible(rows, false), cookie, defaultProject, existing),
            Resolve(Accessible(rows, true), cookie, defaultProject, existing))
  }

  datatype Scenario = Scenario(cookie: string, before: Outcome, after: Outcome, change: Change)

  function ScenarioOf(rows: Rows, cookie: string, defaultProject: string, existing: set<string>): Scenario {
    Scenario(cookie,
             Resolve(Accessible(rows, false), cookie, defaultProject, existing),
             Resolve(Accessible(rows, true), cookie, defaultProject, existing),
             ChangeOf(rows, cookie, defaultProject, existing))
  }

  /** No cookie, and one scenario per project the member can open after the upgrade. */
  function Scenarios(rows: Rows, defaultProject: string, existing: set<string>): seq<Scenario> {
    var cookies := [""] + Accessible(rows, true);
    seq(|cookies|, i requires 0 <= i < |cookies| => ScenarioOf(rows, cookies[i], defaultProject, existing))
  }

  /** What a member without a project, with a missing one and with an existing one is answered. */
  lemma AnswersAre(accessible: seq<string>, cookie: string, defaultProject: string, existing: set<string>)
    ensures accessible == [] ==>
              Resolve(accessible, cookie, defaultProject, existing) == Refused(403, "No project assigned")
    ensures accessible != [] && "" !in accessible ==>
              var landing := if cookie != "" && cookie in accessible then cookie
                             else if cookie == "" && defaultProject != "" && defaultProject in accessible
                                  then defaultProject
                             else accessible[0];
              Resolve(accessible, cookie, defaultProject, existing)
              == if landing in existing then Opens(landing) else Refused(404, "Project not found")
  {
  }

  /** One scenario without a cookie, then one per project the member can open after the upgrade, in that order. */
  lemma ScenariosListed(rows: Rows, defaultProject: string, existing: set<string>, i: nat)
    requires i < |Accessible(rows, true)|
    ensures |Scenarios(rows, defaultProject, existing)| == |Accessible(rows, true)| + 1
    ensures Scenarios(rows, defaultProject, existing)[0].cookie == ""
    ensures Scenarios(rows, defaultProject, existing)[i + 1].cookie == Accessible(rows, true)[i]
    ensures forall s :: s in Scenarios(rows, defaultProject, existing) ==>
              && s.before == Resolve(Accessible(rows, false), s.cookie, defaultProject, existing)
              && s.after == Resolve(Accessible(rows, true), s.cookie, defaultProject, existing)
              && s.change == Compare(s.before, s.after)
  {
  }

  // ── before against after ──

  lemma BeforeIsPrefix(rows: Rows)
    ensures Accessible(rows, false) <= Accessible(rows, true)
  {
    assert rows.legacy + rows.direct + [] == rows.legacy + rows.direct;
    DistinctPrefix(rows.legacy + rows.direct, rows.group);
  }

  lemma AccessibleNonEmpty(rows: Rows, includeGroups: bool)
    ensures "" !in Accessible(rows, includeGroups)
  {
    DistinctMembers(rows.legacy + rows.direct + if includeGroups then rows.group else []);
  }

  /** A landing project is never the empty id, so "Forbidden" is never answered. */
  lemma NeverForbidden(rows: Rows, includeGroups: bool, cookie: string, defaultProject: string, existing: set<string>)
    ensures Resolve(Accessible(rows, includeGroups), cookie, defaultProject, existing) != FORBIDDEN
  {
    AccessibleNonEmpty(rows, includeGroups);
    assert NO_PROJECT != FORBIDDEN && NOT_FOUND != FORBIDDEN;
  }

  /** Reached only through a group: the case the previous release refused. */
  predicate GroupOnly(rows: Rows, project: string) {
    project in Accessible(rows, true) && project !in Accessible(rows, false)
  }

  /**
   * Exactly what the upgrade changes for a member, from their assignments, the
   * wanted project and the projects that exist.
   */
  lemma ChangeExactly(rows: Rows, cookie: string, defaultProject: string, existing: set<string>)
    ensures var before, after := Accessible(rows, false), Accessible(rows, true);
            var wanted := Wanted(cookie, defaultProject);
            ChangeOf(rows, cookie, defaultProject, existing) ==
              if before == [] then
                if after == [] then SameAccess
                else if Landing(after, cookie, defaultProject) in existing then GainsAccess
                else OtherResult
              else if wanted == "" || !GroupOnly(rows, wanted) then SameAccess
              else if before[0] in existing then if wanted in existing then OtherProject else LosesAccess
              else if wanted in existing then GainsAccess
              else SameAccess
  {
    BeforeIsPrefix(rows);
    AccessibleNonEmpty(rows, false);
    AccessibleNonEmpty(rows, true);
    var before, after := Accessible(rows, false), Accessible(rows, true);
    assert before != [] ==> after[0] == before[0];
    assert forall p :: p in before ==> p in after;
    assert NO_PROJECT.error != NOT_FOUND.error;
  }

  /** Access is lost exactly when the wanted project is group-only and gone while the earlier landing project exists. */
  lemma LosesExactly(rows: Rows, cookie: string, defaultProject: string, existing: set<string>)
    ensures ChangeOf(rows, cookie, defaultProject, existing) == LosesAccess <==>
              var wanted := Wanted(cookie, defaultProject);
              && Accessible(rows, false) != [] && wanted != "" && GroupOnly(rows, wanted)
              && wanted !in existing && Accessible(rows, false)[0] in existing
  {
    ChangeExactly(rows, cookie, defaultProject, existing);
  }

  /** The listed scenarios leave nothing out: any other cookie changes nothing, or repeats a listed scenario. */
  lemma ScenariosComplete(rows: Rows, cookie: string, defaultProject: string, existing: set<string>)
    ensures var s := ScenarioOf(rows, cookie, defaultProject, existing);
            s.change == SameAccess
            || exists t ::
                  t in Scenarios(rows, defaultProject, existing) && t.before == s.before && t.after == s.after
                      && t.change == s.change
  {
    BeforeIsPrefix(rows);
    AccessibleNonEmpty(rows, true);
    var after := Accessible(rows, true);
    var cookies := [""] + after;
    var all := Scenarios(rows, defaultProject, existing);
    ChangeExactly(rows, cookie, defaultProject, existing);
    if cookie in cookies {
      var i :| 0 <= i < |cookies| && cookies[i] == cookie;
      assert all[i] == ScenarioOf(rows, cookie, defaultProject, existing);
    } else if Accessible(rows, false) == [] && after != [] {
      assert after[0] in after && cookies[1] == after[0];
      assert all[1] == ScenarioOf(rows, after[0], defaultProject, existing);
    }
  }

  // ── the oracle narrows by the project the member lands in ──

  function RowsOfRequest(req: Request): Rows {
    Rows(req.legacy, ProjectIds(req.direct), ProjectIds(req.group))
  }

  /**
   * For a session that can be narrowed, the oracle's project is the one the
   * access report resolves with group rows included, and the oracle finds no
   * membership exactly when the member has no project at all.
   */
  lemma OracleProjectIsLanding(cat: Catalog, req: Request, existing: set<string>)
    requires req.kind.Session? && !NeverNarrowed(req)
    ensures var outcome := Resolve(Accessible(RowsOfRequest(req), true), req.requested, req.defaultProject, existing);
            var membership := MembershipOf(cat, req);
            && (membership.None? <==> outcome == NO_PROJECT)
            && (membership.Some? ==>
                  outcome == if membership.value.projectId in existing then Opens(membership.value.projectId)
                      else NOT_FOUND)
  {
    AccessibleNonEmpty(RowsOfRequest(req), true);
    assert Accessible(RowsOfRequest(req), true) == Members(req);
    assert NO_PROJECT.error != NOT_FOUND.error && NO_PROJECT.error != FORBIDDEN.error;
  }
}
