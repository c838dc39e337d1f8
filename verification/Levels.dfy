/**
 * The four permission levels of a service, and the three questions the access
 * report asks about every service (scripts/iam/preflight/model.ts).
 */
module Levels {
  import opened Options

  datatype Level = NoAccess | CanRead | CanWrite | CanAdmin

  function Rank(level: Level): (r: nat)
    ensures r <= 3
  {
    match level
    case NoAccess => 0
    case CanRead => 1
    case CanWrite => 2
    case CanAdmin => 3
  }

  /** rbac.ts `minPermission`. */
  function MinLevel(a: Level, b: Level): Level {
    if Rank(a) <= Rank(b) then a else b
  }

  /** The "highest wins" update: a strictly higher level replaces the current one. */
  function MaxLevel(current: Level, level: Level): Level {
    if Rank(level) > Rank(current) then level else current
  }

  datatype Method = Get | Post

  datatype Check = ReadCheck | WriteCheck | AdminCheck

  /** The checks in the order the report asks them. */
  const CHECKS: seq<Check> := [ReadCheck, WriteCheck, AdminCheck]

  function MethodOf(check: Check): Method {
    if check.ReadCheck? then Get else Post
  }

  function ExplicitLevel(check: Check): Option<Level> {
    if check.AdminCheck? then Some(CanAdmin) else None
  }

  datatype Checks = Checks(read: bool, write: bool, admin: bool) {
    function At(check: Check): bool {
      match check
      case ReadCheck => read
      case WriteCheck => write
      case AdminCheck => admin
    }

    function With(check: Check, answer: bool): Checks {
      match check
      case ReadCheck => this.(read := answer)
      case WriteCheck => this.(write := answer)
      case AdminCheck => this.(admin := answer)
    }
  }

  const NO_CHECKS := Checks(false, false, false)

  /** The highest level whose check, and every lower one, is allowed. */
  function LevelOfChecks(c: Checks): Level {
    if !c.read then NoAccess
    else if !c.write then CanRead
    else if !c.admin then CanWrite
    else CanAdmin
  }

  datatype Direction = Unchanged | Tighten | Loosen

  function DirectionOf(before: bool, after: bool): Direction {
    if before == after then Unchanged else if before then Tighten else Loosen
  }

  function DirectionOfLevels(before: Level, after: Level): Direction {
    if Rank(before) == Rank(after) then Unchanged
    else if Rank(after) < Rank(before) then Tighten
    else Loosen
  }
}
