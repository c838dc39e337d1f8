/**
 * What a request is decided from, put together from the directory
 * (scripts/iam/preflight/run.ts, census.ts): the groups of a person, the grants
 * they carry and the project rows they bring. The oracle and the gate read the
 * rows of different groups.
 */
module Memberships {
  import opened Levels
  import opened Rbac
  import opened Oracle

  /** A person's groups in membership order, the groups that exist, and the project rows stored per group id. */
  datatype Groups = Groups(memberOf: seq<string>, existing: map<string, Grant>, rows: map<string, seq<Row>>)

  /** A group counts as a grant when it has a role or any stored service entry. */
  predicate IsGrant(group: Grant) {
    group.role != "" || (group.levels.Object? && group.levels.entries.Keys != {})
  }

  function GrantsOf(ids: seq<string>, existing: map<string, Grant>): seq<Grant> {
    if ids == [] then []
    else
      var id := ids[|ids| - 1];
      GrantsOf(ids[..|ids| - 1], existing) + if id in existing && IsGrant(existing[id]) then [existing[id]] else []
  }

  function RowsOf(ids: seq<string>, rows: map<string, seq<Row>>): seq<Row> {
    if ids == [] then []
    else
      var id := ids[|ids| - 1];
      RowsOf(ids[..|ids| - 1], rows) + if id in rows then rows[id] else []
  }

  function ExistingIds(ids: seq<string>, existing: map<string, Grant>): seq<string> {
    if ids == [] then []
    else
      var id := ids[|ids| - 1];
      ExistingIds(ids[..|ids| - 1], existing) + if id in existing then [id] else []
  }

  method ComputeGrants(ids: seq<string>, existing: map<string, Grant>) returns (out: seq<Grant>)
    ensures out == GrantsOf(ids, existing)
  {
    out := [];
    for i := 0 to |ids|
      invariant out == GrantsOf(ids[..i], existing)
    {
      assert ids[..i + 1][..i] == ids[..i];
      if ids[i] in existing && IsGrant(existing[ids[i]]) { out := out + [existing[ids[i]]]; }
    }
    assert ids[..|ids|] == ids;
  }

  /** What the oracle reads: the rows of every group the person is a member of. */
  function OracleRequest(base: Request, g: Groups): Request {
    base.(grants := GrantsOf(g.memberOf, g.existing), group := RowsOf(g.memberOf, g.rows))
  }

  /** What the gate reads: the runner hands it the groups that still exist, and it loads rows for those. */
  function EngineRequest(base: Request, g: Groups): Request {
    base.(grants := GrantsOf(g.memberOf, g.existing), group := RowsOf(ExistingIds(g.memberOf, g.existing), g.rows))
  }

  /** No membership points at a deleted group that left project rows behind. */
  predicate NoOrphanRows(g: Groups) {
    forall id :: id in g.memberOf && id !in g.existing ==> id !in g.rows || g.rows[id] == []
  }

  lemma {:induction false} RowsOfExisting(ids: seq<string>, g: Groups)
    requires forall id :: id in ids ==> id in g.memberOf
    requires NoOrphanRows(g)
    ensures RowsOf(ExistingIds(ids, g.existing), g.rows) == RowsOf(ids, g.rows)
  {
    if ids != [] {
      var init, id := ids[..|ids| - 1], ids[|ids| - 1];
      RowsOfExisting(init, g);
      var kept := ExistingIds(init, g.existing);
      assert (kept + [id])[..|kept|] == kept;
      assert kept + [] == kept;
    }
  }

  // ── no group is left out that matters ──

  function ExistingGroups(ids: seq<string>, existing: map<string, Grant>): seq<Grant> {
    if ids == [] then []
    else
      var rest, id := ExistingGroups(ids[..|ids| - 1], existing), ids[|ids| - 1];
      if id in existing then rest + [existing[id]] else rest
  }

  lemma LevelOfOneMore(cat: Catalog, user: Grant, grants: seq<Grant>, g: Grant, service: string)
    ensures WorkspaceLevel(cat, user, grants + [g], service)
            == MaxLevel(WorkspaceLevel(cat, user, grants, service), OwnLevel(cat, g, service))
  {
    assert (grants + [g])[..|grants|] == grants;
  }

  /** A group without a role and without an entry is no grant, and gives nobody anything. */
  lemma NoGrantNoLevel(cat: Catalog, g: Grant, service: string)
    requires g.role == "" && (g.levels.NotAnObject? || g.levels.entries == map[])
    ensures !IsGrant(g) && OwnLevel(cat, g, service) == NoAccess
  {
  }

  /** Leaving those out changes no level: the grants stand for all groups that exist. */
  lemma {:induction false} GrantsLoseNothing(cat: Catalog, user: Grant, ids: seq<string>, existing: map<string, Grant>,
                                             service: string)
    ensures WorkspaceLevel(cat, user, GrantsOf(ids, existing), service)
            == WorkspaceLevel(cat, user, ExistingGroups(ids, existing), service)
  {
    if ids != [] {
      var init, id := ids[..|ids| - 1], ids[|ids| - 1];
      GrantsLoseNothing(cat, user, init, existing, service);
      if id in existing {
        LevelOfOneMore(cat, user, ExistingGroups(init, existing), existing[id], service);
        if IsGrant(existing[id]) {
          LevelOfOneMore(cat, user, GrantsOf(init, existing), existing[id], service);
        } else {
          assert existing[id].levels.Object? ==> existing[id].levels.entries == map[];
          NoGrantNoLevel(cat, existing[id], service);
        }
      }
      assert GrantsOf(init, existing) + [] == GrantsOf(init, existing);
    }
  }

  /** A group counts exactly when it exists, is one of the person's, and has a role or an entry. */
  lemma {:induction false} GrantsAre(ids: seq<string>, existing: map<string, Grant>, g: Grant)
    ensures g in GrantsOf(ids, existing) <==>
              && (g.role != "" || (g.levels.Object? && g.levels.entries != map[]))
              && exists i :: 0 <= i < |ids| && ids[i] in existing && existing[ids[i]] == g
  {
    if ids != [] {
      var init, id := ids[..|ids| - 1], ids[|ids| - 1];
      GrantsAre(init, existing, g);
      assert forall i :: 0 <= i < |init| ==> init[i] == ids[i];
      assert g.levels.Object? ==> (g.levels.entries == map[] <==> g.levels.entries.Keys == {});
    }
  }

  lemma {:induction false} RowsAre(ids: seq<string>, rows: map<string, seq<Row>>, row: Row)
    ensures row in RowsOf(ids, rows) <==> exists i :: 0 <= i < |ids| && ids[i] in rows && row in rows[ids[i]]
  {
    if ids != [] {
      var init := ids[..|ids| - 1];
      RowsAre(init, rows, row);
      assert forall i :: 0 <= i < |init| ==> init[i] == ids[i];
    }
  }

  /** They come group by group, in membership order: the order that decides which project is first. */
  lemma {:induction false} RowsInOrder(ids: seq<string>, more: seq<string>, rows: map<string, seq<Row>>)
    ensures RowsOf(ids + more, rows) == RowsOf(ids, rows) + RowsOf(more, rows)
    ensures |more| == 1 ==> RowsOf(more, rows) == if more[0] in rows then rows[more[0]] else []
  {
    if more == [] {
      assert ids + more == ids;
    } else {
      var init := more[..|more| - 1];
      assert (ids + more)[..|ids + more| - 1] == ids + init;
      RowsInOrder(ids, init, rows);
      assert |more| == 1 ==> init == [];
    }
  }

  // ── exactly when the gate and the oracle read the same rows ──

  predicate OrphanFree(ids: seq<string>, g: Groups) {
    forall i :: 0 <= i < |ids| && ids[i] !in g.existing ==> ids[i] !in g.rows || g.rows[ids[i]] == []
  }

  lemma {:induction false} OrphansAddRows(ids: seq<string>, g: Groups)
    ensures |RowsOf(ExistingIds(ids, g.existing), g.rows)| <= |RowsOf(ids, g.rows)|
    ensures |RowsOf(ExistingIds(ids, g.existing), g.rows)| == |RowsOf(ids, g.rows)| <==> OrphanFree(ids, g)
  {
    if ids != [] {
      var init, id := ids[..|ids| - 1], ids[|ids| - 1];
      OrphansAddRows(init, g);
      var kept := ExistingIds(init, g.existing);
      assert (kept + [id])[..|kept|] == kept;
      assert kept + [] == kept;
      assert OrphanFree(ids, g)
          <==> OrphanFree(init, g) && (id !in g.existing ==> id !in g.rows || g.rows[id] == []) by {
        assert forall i :: 0 <= i < |init| ==> init[i] == ids[i];
      }
    }
  }

  /** The two requests are the same exactly when no deleted group of the person left rows behind. */
  lemma SameRequestExactly(base: Request, g: Groups)
    ensures EngineRequest(base, g) == OracleRequest(base, g) <==> NoOrphanRows(g)
  {
    OrphansAddRows(g.memberOf, g);
    if NoOrphanRows(g) { RowsOfExisting(g.memberOf, g); }
    assert OrphanFree(g.memberOf, g) <==> NoOrphanRows(g);
  }
}
