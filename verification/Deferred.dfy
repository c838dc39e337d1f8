/**
 * The "No access" entries an upgrade does not read yet, and how the report finds
 * out what they would do (scripts/iam/preflight/run.ts, oracle.ts).
 */
module Deferred {
  import opened Options
  import opened Levels
  import opened Rbac
  import opened Oracle
  import opened Engine
  import opened Attribution
  import opened Preflight

  // ── what is deferred ──

  lemma {:induction false} UnignoredDirect(cat: Catalog, rows: seq<Row>, p: string, since: int, earlier: int)
    requires earlier <= since && !HasIgnored(cat, rows, p, since)
    ensures DirectSources(cat, rows, p, earlier) == DirectSources(cat, rows, p, since)
  {
    if rows != [] {
      if rows[0].projectId == p {
        assert IgnoredNone(cat, rows[0], since) == {};
        UnignoredRow(cat, rows[0], since, earlier);
      } else {
        assert forall i :: 0 <= i < |rows[1..]| ==> rows[1..][i] == rows[i + 1];
        UnignoredDirect(cat, rows[1..], p, since, earlier);
      }
    }
  }

  lemma UnignoredRow(cat: Catalog, row: Row, since: int, earlier: int)
    requires earlier <= since && IgnoredNone(cat, row, since) == {}
    ensures RowLevels(cat, row, earlier) == RowLevels(cat, row, since)
  {
    var levels := Normalize(cat, row.stored);
    if SavedBefore(row, since) {
      assert forall s :: s in levels && levels[s] == NoAccess ==> s in IgnoredNone(cat, row, since);
      assert (map s | s in levels && levels[s] != NoAccess :: levels[s]) == levels;
    }
  }

  lemma {:induction false} UnignoredGroup(cat: Catalog, rows: seq<Row>, p: string, since: int, earlier: int)
    requires earlier <= since && !HasIgnored(cat, rows, p, since)
    ensures GroupSources(cat, rows, p, earlier) == GroupSources(cat, rows, p, since)
  {
    if rows != [] {
      var init, last := rows[..|rows| - 1], rows[|rows| - 1];
      UnignoredGroup(cat, init, p, since, earlier);
      if last.projectId == p {
        assert IgnoredNone(cat, last, since) == {};
        UnignoredRow(cat, last, since, earlier);
      }
    }
  }

  /** The gate on the second evaluation loses nothing: without an ignored entry, no earlier instant changes a level. */
  lemma NothingDeferred(cat: Catalog, req: Request, rows: seq<Row>, earlier: int, service: string)
    requires earlier <= req.since && !DefersAnything(cat, req, rows)
    requires forall row :: row in req.direct + req.group ==> row in rows
    ensures OracleLevel(cat, req.(since := earlier), service) == OracleLevel(cat, req, service)
  {
    EarlierActivationOnlyRevokes(cat, req, earlier, service);
    SameProject(req);
    SameNarrowing(cat, req);
    if MembershipOf(cat, req).Some? {
      var p := ActiveProject(req).value;
      UnignoredPart(cat, req.direct, req.direct + req.group, rows, p, req.since);
      UnignoredPart(cat, req.group, req.direct + req.group, rows, p, req.since);
      UnignoredDirect(cat, req.direct, p, req.since, earlier);
      UnignoredGroup(cat, req.group, p, req.since, earlier);
    }
  }

  lemma UnignoredPart(cat: Catalog, part: seq<Row>, own: seq<Row>, rows: seq<Row>, p: string, since: int)
    requires !HasIgnored(cat, rows, p, since)
    requires (forall row :: row in part ==> row in own) && forall row :: row in own ==> row in rows
    ensures !HasIgnored(cat, part, p, since)
  {
    forall i | 0 <= i < |part| && part[i].projectId == p ensures IgnoredNone(cat, part[i], since) == {} {
      assert part[i] in rows;
      var j :| 0 <= j < |rows| && rows[j] == part[i];
    }
  }

  /** A deferred observation is a revocation: the caller still has the service and would lose all of it. */
  lemma DeferredRevokes(cat: Catalog, req: Request, rows: seq<Row>, verifyAll: bool, service: string)
    requires IsService(cat, service) && WellFormed(req) && 0 <= req.since
    ensures var o := Observe(cat, req, rows, verifyAll, service);
            o.deferred.Some? ==>
              && o.deferred.value == NO_CHECKS && o.after.read
              && DirectionOfLevels(LevelOfChecks(o.after), LevelOfChecks(o.deferred.value)) == Tighten
  {
    var later, deferred := AnswersAfter(cat, req, [], service), AnswersAfter(cat, req.(since := 0), [], service);
    AnswersAreLadders(cat, req, service);
    if later != deferred {
      DeferredIsNothing(cat, req, service);
    }
  }

  lemma EngineAnswers(cat: Catalog, req: Request, service: string)
    requires IsService(cat, service) && WellFormed(req)
    ensures AnswersAfter(cat, req, [], service) == OracleAnswers(cat, req, service)
  {
    EngineMatchesOracle(cat, req, ReadCheck, service);
    EngineMatchesOracle(cat, req, WriteCheck, service);
    EngineMatchesOracle(cat, req, AdminCheck, service);
  }

  lemma DeferredIsNothing(cat: Catalog, req: Request, service: string)
    requires IsService(cat, service) && WellFormed(req) && 0 <= req.since
    requires AnswersAfter(cat, req, [], service) != AnswersAfter(cat, req.(since := 0), [], service)
    ensures AnswersAfter(cat, req.(since := 0), [], service) == NO_CHECKS
  {
    EngineAnswers(cat, req, service);
    EngineAnswers(cat, req.(since := 0), service);
    RevokedAnswers(cat, req, service);
  }

  lemma RevokedAnswers(cat: Catalog, req: Request, service: string)
    requires 0 <= req.since
    ensures OracleAnswers(cat, req.(since := 0), service) in {OracleAnswers(cat, req, service), NO_CHECKS}
  {
    EarlierActivationOnlyRevokes(cat, req, 0, service);
  }

  // ── counting every stored level ──

  /** The row keeps its "No access" entries hidden even at instant 0. */
  predicate HiddenAtZero(row: Row) {
    row.updatedAt.None? || row.updatedAt.value < 0
  }

  predicate StoresNoAccess(cat: Catalog, row: Row) {
    exists s :: s in Normalize(cat, row.stored) && Normalize(cat, row.stored)[s] == NoAccess
  }

  /**
   * Counting "every" stored level by moving the instant to 0 reads a row in full
   * exactly when the row has a usable date or stores no "No access".
   */
  lemma ZeroInstantReadsRow(cat: Catalog, row: Row)
    ensures RowLevels(cat, row, 0) == Normalize(cat, row.stored) <==> !HiddenAtZero(row) || !StoresNoAccess(cat, row)
  {
    var levels := Normalize(cat, row.stored);
    if HiddenAtZero(row) {
      var kept := map s | s in levels && levels[s] != NoAccess :: levels[s];
      if StoresNoAccess(cat, row) {
        var s :| s in levels && levels[s] == NoAccess;
        assert s !in kept;
      } else {
        assert kept == levels;
      }
    }
  }

  /** An undated row that says "none" stays unread at instant 0. */
  lemma UndatedRowStaysHidden(cat: Catalog, row: Row, service: string)
    requires IsService(cat, service) && row.updatedAt.None? && row.stored == Object(map[service := "none"])
    ensures Normalize(cat, row.stored) == map[service := NoAccess] && RowLevels(cat, row, 0) == map[]
  {
  }

  function FirstOf(rows: seq<Row>, project: string): seq<Row> {
    if rows == [] then [] else if rows[0].projectId == project then [rows[0]] else FirstOf(rows[1..], project)
  }

  function AllOf(rows: seq<Row>, project: string): seq<Row> {
    if rows == [] then []
    else
      var rest, last := AllOf(rows[..|rows| - 1], project), rows[|rows| - 1];
      rest + if last.projectId == project then [last] else []
  }

  /** The rows a request is narrowed by: the first own one of the project, and every inherited one. */
  function ReadRows(req: Request, project: string): seq<Row> {
    FirstOf(req.direct, project) + AllOf(req.group, project)
  }

  function LevelsOf(cat: Catalog, rows: seq<Row>, since: int): (maps: seq<LevelMap>)
    ensures |maps| == |rows| && forall i :: 0 <= i < |rows| ==> maps[i] == RowLevels(cat, rows[i], since)
  {
    seq(|rows|, i requires 0 <= i < |rows| => RowLevels(cat, rows[i], since))
  }

  lemma {:induction false} DirectAreRows(cat: Catalog, rows: seq<Row>, project: string, since: int)
    ensures DirectSources(cat, rows, project, since) == LevelsOf(cat, FirstOf(rows, project), since)
  {
    if rows != [] && rows[0].projectId != project { DirectAreRows(cat, rows[1..], project, since); }
  }

  lemma {:induction false} GroupAreRows(cat: Catalog, rows: seq<Row>, project: string, since: int)
    ensures GroupSources(cat, rows, project, since) == LevelsOf(cat, AllOf(rows, project), since)
  {
    if rows != [] {
      var init, last := rows[..|rows| - 1], rows[|rows| - 1];
      GroupAreRows(cat, init, project, since);
      var kept := AllOf(init, project);
      assert LevelsOf(cat, kept + [last], since) == LevelsOf(cat, kept, since) + [RowLevels(cat, last, since)];
      assert kept + [] == kept;
    }
  }

  lemma SourcesAreRows(cat: Catalog, req: Request, project: string)
    ensures Sources(cat, req, project) == LevelsOf(cat, ReadRows(req, project), req.since)
  {
    DirectAreRows(cat, req.direct, project, req.since);
    GroupAreRows(cat, req.group, project, req.since);
  }

  /** The rows with a date from which nothing is ignored at instant 0. */
  function Saved(rows: seq<Row>): (r: seq<Row>)
    ensures |r| == |rows| && forall i :: 0 <= i < |rows| ==> r[i] == rows[i].(updatedAt := Some(0))
  {
    seq(|rows|, i requires 0 <= i < |rows| => rows[i].(updatedAt := Some(0)))
  }

  /** The request with every stored level counted. */
  function InFull(req: Request): Request {
    req.(direct := Saved(req.direct), group := Saved(req.group), since := 0)
  }

  lemma {:induction false} FirstSaved(rows: seq<Row>, project: string)
    ensures FirstOf(Saved(rows), project) == Saved(FirstOf(rows, project))
  {
    if rows != [] {
      assert Saved(rows)[1..] == Saved(rows[1..]);
      FirstSaved(rows[1..], project);
    }
  }

  lemma {:induction false} AllSaved(rows: seq<Row>, project: string)
    ensures AllOf(Saved(rows), project) == Saved(AllOf(rows, project))
  {
    if rows != [] {
      assert Saved(rows)[..|rows| - 1] == Saved(rows[..|rows| - 1]);
      AllSaved(rows[..|rows| - 1], project);
    }
  }

  lemma ReadInFull(req: Request, project: string)
    ensures ReadRows(InFull(req), project) == Saved(ReadRows(req, project))
  {
    FirstSaved(req.direct, project);
    AllSaved(req.group, project);
  }

  /** Some of the rows stores a level for the service. */
  predicate Stores(cat: Catalog, rows: seq<Row>, service: string) {
    exists i :: 0 <= i < |rows| && service in Normalize(cat, rows[i].stored)
  }

  /** Some of the rows shows a level for the service at instant 0. */
  predicate ShownAtZero(cat: Catalog, rows: seq<Row>, service: string) {
    exists i :: 0 <= i < |rows| && service in RowLevels(cat, rows[i], 0)
  }

  /** At instant 0 the rows say the same about a service as in full, or nothing instead of "No access". */
  lemma RowsInFull(cat: Catalog, rows: seq<Row>, service: string)
    ensures var shown := HighestPerService(LevelsOf(cat, rows, 0));
            var full := HighestPerService(LevelsOf(cat, Saved(rows), 0));
            && (service in shown <==> ShownAtZero(cat, rows, service))
            && (service in full <==> Stores(cat, rows, service))
            && KeptOrNone(shown, full, service)
  {
    var shown, full := LevelsOf(cat, rows, 0), LevelsOf(cat, Saved(rows), 0);
    assert forall i :: 0 <= i < |rows| ==> full[i] == Normalize(cat, rows[i].stored);
    HighestKeptOrNone(shown, full, service);
    NamedIn(shown, service);
    NamedIn(full, service);
  }

  lemma NamedIn(maps: seq<LevelMap>, service: string)
    ensures service in HighestPerService(maps) <==> exists i :: 0 <= i < |maps| && service in maps[i]
  {
    HighestIsMaximum(maps, service);
    if i :| 0 <= i < |maps| && service in maps[i] { assert maps[i] in maps; }
  }

  /** Both readings narrow by the same project, or neither narrows. */
  lemma ZeroMemberships(cat: Catalog, req: Request)
    ensures var zero, full := MembershipOf(cat, req.(since := 0)), MembershipOf(cat, InFull(req));
            if NeverNarrowed(req) || ActiveProject(req).None? then zero.None? && full.None?
            else
              var p := ActiveProject(req).value;
              var rows := ReadRows(req, p);
              && zero == Some(Membership(p, HighestPerService(LevelsOf(cat, rows, 0))))
              && full == Some(Membership(p, HighestPerService(LevelsOf(cat, Saved(rows), 0))))
  {
    var zero, full := req.(since := 0), InFull(req);
    assert ProjectIds(full.direct) == ProjectIds(req.direct) && ProjectIds(full.group) == ProjectIds(req.group);
    assert Members(zero) == Members(req) == Members(full);
    if !NeverNarrowed(req) && ActiveProject(req).Some? {
      var p := ActiveProject(req).value;
      SourcesAreRows(cat, zero, p);
      SourcesAreRows(cat, full, p);
      ReadInFull(req, p);
    }
  }

  lemma NarrowedDiffers(level: Level, p: string, shown: LevelMap, full: LevelMap, service: string)
    requires KeptOrNone(shown, full, service)
    ensures Narrowed(level, Some(Membership(p, shown)), service) != Narrowed(level, Some(Membership(p, full)), service)
            <==> level != NoAccess && service !in shown && service in full
  {
  }

  /** The service is stored for the rows' project, and every row that stores it stays hidden at instant 0. */
  predicate OnlyHidden(cat: Catalog, rows: seq<Row>, service: string) {
    Stores(cat, rows, service) && !ShownAtZero(cat, rows, service)
  }

  /**
   * "If every No access counted", as the report computes it, is right about a
   * service unless its rows store a level for it and all of them stay hidden at
   * instant 0; then the report shows no change where all access would be lost.
   */
  lemma ZeroInstantExactly(cat: Catalog, req: Request, service: string)
    ensures OracleLevel(cat, req.(since := 0), service) != OracleLevel(cat, InFull(req), service)
            <==> && !NeverNarrowed(req) && ActiveProject(req).Some? && OwnerLevel(cat, req, service) != NoAccess
                 && OnlyHidden(cat, ReadRows(req, ActiveProject(req).value), service)
  {
    ZeroMemberships(cat, req);
    if !NeverNarrowed(req) && ActiveProject(req).Some? {
      ZeroLevels(cat, OwnerLevel(cat, req, service), ActiveProject(req).value, ReadRows(req, ActiveProject(req).value),
                 service);
    }
  }

  lemma ZeroLevels(cat: Catalog, level: Level, p: string, rows: seq<Row>, service: string)
    ensures var shown := HighestPerService(LevelsOf(cat, rows, 0));
            var full := HighestPerService(LevelsOf(cat, Saved(rows), 0));
            Narrowed(level, Some(Membership(p, shown)), service) != Narrowed(level, Some(Membership(p, full)), service)
            <==> level != NoAccess && OnlyHidden(cat, rows, service)
  {
    RowsInFull(cat, rows, service);
    NarrowedDiffers(level, p, HighestPerService(LevelsOf(cat, rows, 0)),
                    HighestPerService(LevelsOf(cat, Saved(rows), 0)), service);
  }
}
