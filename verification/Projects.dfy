/**
 * The ordered, duplicate-free project list both the oracle and the access report
 * build from legacy ids, own assignments and group assignments.
 */
module Projects {
  /** The non-empty ids in order of first occurrence. */
  function Distinct(ids: seq<string>): seq<string> {
    if ids == [] then []
    else
      var rest := Distinct(ids[..|ids| - 1]);
      var id := ids[|ids| - 1];
      if id != "" && id !in rest then rest + [id] else rest
  }

  lemma {:induction false} DistinctMembers(ids: seq<string>)
    ensures forall id :: id in Distinct(ids) <==> id != "" && id in ids
    ensures forall i, j :: 0 <= i < j < |Distinct(ids)| ==> Distinct(ids)[i] != Distinct(ids)[j]
  {
    if ids != [] {
      DistinctMembers(ids[..|ids| - 1]);
      assert ids == ids[..|ids| - 1] + [ids[|ids| - 1]];
    }
  }

  /** Appending ids only appends to the list, so an earlier landing project stays first. */
  lemma {:induction false} DistinctPrefix(ids: seq<string>, more: seq<string>)
    ensures Distinct(ids) <= Distinct(ids + more)
  {
    if more == [] {
      assert ids + more == ids;
    } else {
      var init := more[..|more| - 1];
      DistinctPrefix(ids, init);
      assert (ids + more)[..|ids + more| - 1] == ids + init;
    }
  }

  /** The oracle's loop: a list that is searched before each push (oracle.ts). */
  method DistinctByList(ids: seq<string>) returns (members: seq<string>)
    ensures members == Distinct(ids)
  {
    members := [];
    for i := 0 to |ids|
      invariant members == Distinct(ids[..i])
    {
      assert ids[..i + 1][..i] == ids[..i];
      if ids[i] != "" && ids[i] !in members {
        members := members + [ids[i]];
      }
    }
    assert ids[..|ids|] == ids;
  }

  /** The access report's loop: a set decides, the list only collects (access.ts). */
  method DistinctBySet(ids: seq<string>) returns (out: seq<string>)
    ensures out == Distinct(ids)
  {
    var seen: set<string> := {};
    out := [];
    for i := 0 to |ids|
      invariant out == Distinct(ids[..i])
      invariant forall id :: id in seen <==> id in out
    {
      assert ids[..i + 1][..i] == ids[..i];
      if ids[i] != "" && ids[i] !in seen {
        seen := seen + {ids[i]};
        out := out + [ids[i]];
      }
    }
    assert ids[..|ids|] == ids;
  }
}
