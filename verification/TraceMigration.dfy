/**
 * What the migration of one event does, read off its stored fields
 * (scripts/backfill-trace-fields.ts, src/lib/shared/finishReason.ts): which reason
 * is taken, how it is normalised, which keys go and which stay.
 */
module TraceMigration {
  import opened Options
  import opened TraceFields

  // ── normal form ──

  /** White space is what JavaScript trims: the code points of white space and line ends. */
  lemma SpacesAre(c: char)
    ensures IsSpace(c) <==>
              || c as int in {9, 10, 11, 12, 13, 32, 0xA0, 0x1680, 0x2028, 0x2029, 0x202F, 0x205F, 0x3000, 0xFEFF}
              || 0x2000 <= c as int <= 0x200A
  {
  }

  lemma {:induction false} TrimStartIs(pre: string, rest: string)
    requires (forall i :: 0 <= i < |pre| ==> IsSpace(pre[i])) && (rest == "" || !IsSpace(rest[0]))
    ensures TrimStart(pre + rest) == rest
  {
    if pre == "" {
      assert pre + rest == rest;
    } else {
      assert (pre + rest)[1..] == pre[1..] + rest;
      TrimStartIs(pre[1..], rest);
    }
  }

  lemma {:induction false} TrimEndIs(rest: string, post: string)
    requires (forall i :: 0 <= i < |post| ==> IsSpace(post[i])) && (rest == "" || !IsSpace(rest[|rest| - 1]))
    ensures TrimEnd(rest + post) == rest
  {
    if post == "" {
      assert rest + post == rest;
    } else {
      var all := rest + post;
      assert all[..|all| - 1] == rest + post[..|post| - 1];
      TrimEndIs(rest, post[..|post| - 1]);
    }
  }

  /** Trimming removes the surrounding white space and nothing else. */
  lemma TrimIs(pre: string, core: string, post: string)
    requires core != "" && !IsSpace(core[0]) && !IsSpace(core[|core| - 1])
    requires (forall i :: 0 <= i < |pre| ==> IsSpace(pre[i])) && forall i :: 0 <= i < |post| ==> IsSpace(post[i])
    ensures Trim(pre + core + post) == core
  {
    assert pre + core + post == pre + (core + post);
    TrimStartIs(pre, core + post);
    TrimEndIs(core, post);
  }

  /**
   * The letters, digits and marks a reason may be made of, in either case (and the Kelvin sign,
   * which lowers to `k`).
   */
  predicate Plausible(c: char) {
    'a' <= c <= 'z' || 'A' <= c <= 'Z' || '0' <= c <= '9' || c == '_' || c == '.' || c == ':' || c == '-'
        || c == '\U{212A}'
  }

  lemma LowerIsPlausible(c: char)
    ensures ReasonChar(LowerChar(c)) <==> Plausible(c)
    ensures 'A' <= c <= 'Z' ==> LowerChar(c) == (c as int - 'A' as int + 'a' as int) as char
    ensures !('A' <= c <= 'Z') && c != '\U{212A}' ==> LowerChar(c) == c
  {
  }

  /** A reason is kept exactly when, trimmed, it has 1 to 64 plausible characters; it is stored in lower case. */
  lemma NormalizeIs(s: string)
    ensures Normalize(s).Some? <==> 1 <= |Trim(s)| <= 64 && forall i :: 0 <= i < |Trim(s)| ==> Plausible(Trim(s)[i])
    ensures Normalize(s).Some? ==>
              |Normalize(s).value| == |Trim(s)|
                  && forall i :: 0 <= i < |Trim(s)| ==> Normalize(s).value[i] == LowerChar(Trim(s)[i])
  {
    var t := Trim(s);
    forall i | 0 <= i < |t| ensures ReasonChar(Lower(t)[i]) <==> Plausible(t[i]) { LowerIsPlausible(t[i]); }
  }

  // ── which reason is taken ──

  lemma {:induction false} FirstTextIs(items: seq<Value>, i: nat)
    requires i < |items| && items[i].Text? && Trim(items[i].s) != ""
    requires forall j :: 0 <= j < i ==> !items[j].Text? || Trim(items[j].s) == ""
    ensures FirstText(items) == Some(items[i].s)
  {
    if i > 0 { FirstTextIs(items[1..], i - 1); }
  }

  lemma {:induction false} NoTextIs(items: seq<Value>)
    requires forall j :: 0 <= j < |items| ==> !items[j].Text? || Trim(items[j].s) == ""
    ensures FirstText(items) == None
  {
    if items != [] { NoTextIs(items[1..]); }
  }

  lemma {:induction false} BeforeCommaIs(s: string, n: nat)
    requires n <= |s| && (n < |s| ==> s[n] == ',') && forall j :: 0 <= j < n ==> s[j] != ','
    ensures BeforeComma(s) == s[..n]
  {
    if n > 0 {
      BeforeCommaIs(s[1..], n - 1);
      assert s[..n] == [s[0]] + s[1..][..n - 1];
    }
  }

  /** The reason under a key that holds one. */
  function PlainReason(m: Metadata, key: string): Option<string> {
    if key in m && m[key].Text? then Normalize(m[key].s) else None
  }

  /** The reason under the key that holds several, as a list or as a text with commas. */
  function ListedReason(m: Metadata): Option<string> {
    if "finishReasons" !in m then None
    else match m["finishReasons"]
         case Items(items) => if FirstText(items) == None then None else Normalize(FirstText(items).value)
         case Text(s) => if Trim(s) == "" then None else Normalize(Trim(BeforeComma(s)))
         case Other(_) => None
  }

  /** The keys in the order of their priority. */
  function ReasonIn(m: Metadata): Option<string> {
    if PlainReason(m, "finishReason") != None then PlainReason(m, "finishReason")
    else if PlainReason(m, "finish_reason") != None then PlainReason(m, "finish_reason")
    else if PlainReason(m, "stop_reason") != None then PlainReason(m, "stop_reason")
    else ListedReason(m)
  }

  lemma UnderKey(m: Metadata, key: string)
    ensures key != "finishReasons" ==> ReasonUnder(key, m) == PlainReason(m, key)
    ensures key == "finishReasons" ==> ReasonUnder(key, m) == ListedReason(m)
  {
  }

  lemma FindUnfolds(keys: seq<string>, m: Metadata)
    requires |keys| == 4
    ensures FindReason(keys, m) ==
              if ReasonUnder(keys[0], m).Some? then ReasonUnder(keys[0], m)
              else if ReasonUnder(keys[1], m).Some? then ReasonUnder(keys[1], m)
              else if ReasonUnder(keys[2], m).Some? then ReasonUnder(keys[2], m)
              else ReasonUnder(keys[3], m)
  {
    assert keys[1..][0] == keys[1] && keys[1..][1..] == keys[2..];
    assert keys[2..][0] == keys[2] && keys[2..][1..] == keys[3..];
    assert keys[3..][0] == keys[3] && keys[3..][1..] == [];
    assert FindReason(keys[3..], m) == ReasonUnder(keys[3], m);
    assert FindReason(keys[2..], m)
        == if ReasonUnder(keys[2], m).Some? then ReasonUnder(keys[2], m) else FindReason(keys[3..], m);
    assert FindReason(keys[1..], m)
        == if ReasonUnder(keys[1], m).Some? then ReasonUnder(keys[1], m) else FindReason(keys[2..], m);
  }

  lemma FindReasonIs(m: Metadata)
    ensures FindReason(FINISH_REASON_KEYS, m) == ReasonIn(m)
  {
    FindUnfolds(FINISH_REASON_KEYS, m);
    UnderKey(m, "finishReason");
    UnderKey(m, "finish_reason");
    UnderKey(m, "stop_reason");
    UnderKey(m, "finishReasons");
  }

  // ── one migrated event ──

  const REASON_KEYS: set<string> := {"finishReason", "finish_reason", "stop_reason", "finishReasons"}

  lemma KeySetIs()
    ensures KeySet(FINISH_REASON_KEYS) == REASON_KEYS && REASONING_TOKENS_KEY == "reasoningTokens"
  {
    var keys := FINISH_REASON_KEYS;
    assert keys[0] == "finishReason" && keys[1] == "finish_reason" && keys[2] == "stop_reason"
        && keys[3] == "finishReasons";
    assert forall k :: k in REASON_KEYS ==> k in KeySet(keys);
  }

  /** The reason the migration takes out of the metadata: only where the column is still empty. */
  function TakenReason(e: Event): Option<string> {
    if e.finishReason == None || e.finishReason == Some("") then ReasonIn(e.metadata) else None
  }

  /** And the token count: only where the column is absent, and only a positive number. */
  function TakenTokens(num: ToNumber, e: Event): Option<real> {
    if e.reasoningTokens != None || "reasoningTokens" !in e.metadata then None
    else match num(e.metadata["reasoningTokens"])
         case NotFinite => None
         case Finite(r) => if r > 0.0 then Some(r) else None
  }

  /** The columns after the migration: what was taken, else what was there. */
  lemma MigratedColumns(num: ToNumber, e: Event)
    ensures Migrated(num, e).finishReason == if TakenReason(e) != None then TakenReason(e) else e.finishReason
    ensures Migrated(num, e).reasoningTokens
            == if TakenTokens(num, e) != None then Some(Finite(TakenTokens(num, e).value)) else e.reasoningTokens
  {
    FindReasonIs(e.metadata);
  }

  /** The metadata after it: without the keys of what was taken, and otherwise untouched. */
  lemma MigratedMetadata(num: ToNumber, e: Event, key: string)
    ensures key in Migrated(num, e).metadata <==>
              && key in e.metadata
              && !(TakenReason(e) != None && key in REASON_KEYS)
              && !(TakenTokens(num, e) != None && key == "reasoningTokens")
    ensures key in Migrated(num, e).metadata ==> Migrated(num, e).metadata[key] == e.metadata[key]
  {
    FindReasonIs(e.metadata);
    KeySetIs();
  }

  // ── what a run reports to have found ──

  function ReasonsIn(events: seq<Event>): nat {
    if events == [] then 0
        else ReasonsIn(events[..|events| - 1]) + if TakenReason(events[|events| - 1]) != None then 1 else 0
  }

  function TokensIn(num: ToNumber, events: seq<Event>): nat {
    if events == [] then 0
    else TokensIn(num, events[..|events| - 1]) + if TakenTokens(num, events[|events| - 1]) != None then 1 else 0
  }

  /** The finds of a run are the events it takes a reason or a token count from. */
  lemma {:induction false} FindsAreEvents(num: ToNumber, events: seq<Event>)
    ensures TallyOf(num, events).reasonsFound == ReasonsIn(events)
    ensures TallyOf(num, events).tokensFound == TokensIn(num, events)
  {
    if events != [] {
      FindsAreEvents(num, events[..|events| - 1]);
      FindReasonIs(events[|events| - 1].metadata);
    }
  }

  /** The report of a run: all events scanned, and found, written and recomputed as it really happened. */
  lemma StatsAre(num: ToNumber, s: Session, dryRun: bool)
    ensures var stats := StatsOf(num, s, dryRun);
            && stats.eventsScanned == |s.events|
            && stats.reasonsFound == ReasonsIn(s.events) && stats.tokensFound == TokensIn(num, s.events)
            && stats.reasonsWritten == (if dryRun then 0 else ReasonsIn(s.events))
            && stats.tokensWritten == (if dryRun then 0 else TokensIn(num, s.events))
            && (stats.recomputed == 0 <==>
                  && ReasonsIn(s.events) == 0 && TokensIn(num, s.events) == 0
                  && s.totalReasoningTokens == TallyOf(num, s.events).tokens
                  && s.truncatedEvents == TallyOf(num, s.events).truncated)
  {
    FindsAreEvents(num, s.events);
  }
}
