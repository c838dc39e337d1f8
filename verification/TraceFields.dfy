/**
 * Moving `finishReason` and `reasoningTokens` out of an event's metadata into their
 * columns, then recomputing the session's roll-ups (scripts/backfill-trace-fields.ts,
 * src/lib/shared/finishReason.ts).
 */
module TraceFields {
  import opened Options

  // ── finish reasons ──

  predicate IsSpace(c: char) {
    c in " \t\n\r" || c == 11 as char || c == 12 as char || c == '\U{A0}' || c == '\U{FEFF}'
    || c == '\U{1680}' || '\U{2000}' <= c <= '\U{200A}' || c in "\U{2028}\U{2029}\U{202F}\U{205F}\U{3000}"
  }

  function TrimStart(s: string): string {
    if s != "" && IsSpace(s[0]) then TrimStart(s[1..]) else s
  }

  function TrimEnd(s: string): string {
    if s != "" && IsSpace(s[|s| - 1]) then TrimEnd(s[..|s| - 1]) else s
  }

  function Trim(s: string): string {
    TrimEnd(TrimStart(s))
  }

  /** Only ASCII letters and the Kelvin sign have an ASCII lower case; no other letter passes the shape check. */
  function LowerChar(c: char): char {
    if 'A' <= c <= 'Z' then (c as int + 32) as char else if c == '\U{212A}' then 'k' else c
  }

  function Lower(s: string): string {
    seq(|s|, i requires 0 <= i < |s| => LowerChar(s[i]))
  }

  predicate ReasonChar(c: char) {
    'a' <= c <= 'z' || '0' <= c <= '9' || c in "_.:-"
  }

  predicate WellShaped(s: string) {
    1 <= |s| <= 64 && forall i :: 0 <= i < |s| ==> ReasonChar(s[i])
  }

  function Normalize(s: string): Option<string> {
    var n := Lower(Trim(s));
    if WellShaped(n) then Some(n) else None
  }

  const TRUNCATION_REASONS := {"length", "max_tokens", "model_length", "output_token_limit", "max_output_tokens"}

  predicate IsTruncated(reason: Option<string>) {
    reason.Some? && reason.value in TRUNCATION_REASONS
  }

  lemma WellShapedIsNormal(s: string)
    requires WellShaped(s)
    ensures Normalize(s) == Some(s)
  {
    assert !IsSpace(s[0]) && !IsSpace(s[|s| - 1]);
    assert TrimStart(s) == s && TrimEnd(s) == s;
    assert Lower(s) == s;
  }

  /** A persisted reason is read back as it was stored. */
  lemma NormalizeIdempotent(s: string)
    ensures Normalize(s).Some? ==> Normalize(s).value != "" && Normalize(Normalize(s).value) == Normalize(s)
  {
    if Normalize(s).Some? { WellShapedIsNormal(Normalize(s).value); }
  }

  // ── events ──

  /** A JavaScript number: finite, or NaN / infinite. */
  datatype Number = Finite(r: real) | NotFinite

  datatype Value = Text(s: string) | Items(items: seq<Value>) | Other(id: int)

  type Metadata = map<string, Value>

  datatype Event = Event(finishReason: Option<string>, reasoningTokens: Option<Number>, metadata: Metadata)

  const FINISH_REASON_KEYS: seq<string> := ["finishReason", "finish_reason", "stop_reason", "finishReasons"]
  const REASONING_TOKENS_KEY := "reasoningTokens"

  function FirstText(items: seq<Value>): Option<string> {
    if items == [] then None
    else if items[0].Text? && Trim(items[0].s) != "" then Some(items[0].s)
    else FirstText(items[1..])
  }

  function BeforeComma(s: string): string {
    if s == "" || s[0] == ',' then "" else [s[0]] + BeforeComma(s[1..])
  }

  function FirstOfReasons(raw: Value): Option<string> {
    match raw
    case Items(items) => FirstText(items)
    case Text(s) => if Trim(s) != "" then Some(Trim(BeforeComma(s))) else None
    case Other(_) => None
  }

  function Candidate(key: string, raw: Value): Option<string> {
    if key == "finishReasons" then FirstOfReasons(raw)
    else if raw.Text? then Some(raw.s)
    else None
  }

  function ReasonUnder(key: string, m: Metadata): Option<string> {
    if key !in m then None
    else match Candidate(key, m[key])
         case None => None
         case Some(text) => Normalize(text)
  }

  /** The first of the keys whose value is a plausible reason. */
  function FindReason(keys: seq<string>, m: Metadata): Option<string> {
    if keys == [] then None
    else if ReasonUnder(keys[0], m).Some? then ReasonUnder(keys[0], m)
    else FindReason(keys[1..], m)
  }

  /** How a metadata value converts to a number: any conversion will do. */
  type ToNumber = Value -> Number

  function FindTokens(num: ToNumber, m: Metadata): Option<real> {
    if REASONING_TOKENS_KEY !in m then None
    else match num(m[REASONING_TOKENS_KEY])
         case NotFinite => None
         case Finite(r) => if r > 0.0 then Some(r) else None
  }

  datatype Patch = Patch(finishReason: Option<string>, reasoningTokens: Option<real>, metadata: Metadata)

  /** An empty-string column counts as empty, like an absent one. */
  predicate ColumnEmpty(e: Event) {
    e.finishReason.None? || e.finishReason.value == ""
  }

  function KeySet(keys: seq<string>): set<string> {
    set i | 0 <= i < |keys| :: keys[i]
  }

  function ComputePatch(num: ToNumber, e: Event): Option<Patch> {
    var reason := if ColumnEmpty(e) then FindReason(FINISH_REASON_KEYS, e.metadata) else None;
    var tokens := if e.reasoningTokens.None? then FindTokens(num, e.metadata) else None;
    if reason.None? && tokens.None? then None
    else
      var stripped := if reason.Some? then e.metadata - KeySet(FINISH_REASON_KEYS) else e.metadata;
      Some(Patch(reason, tokens, if tokens.Some? then stripped - {REASONING_TOKENS_KEY} else stripped))
  }

  /** `computeEventPatch` with its two loops over the legacy keys. */
  method ComputeEventPatch(num: ToNumber, e: Event) returns (patch: Option<Patch>)
    ensures patch == ComputePatch(num, e)
  {
    var next := e.metadata;
    var reason: Option<string> := None;
    if ColumnEmpty(e) {
      reason := SearchReason(e.metadata);
      if reason.Some? { next := StripKeys(next); }
    }
    var tokens: Option<real> := None;
    if e.reasoningTokens.None? && REASONING_TOKENS_KEY in e.metadata {
      var n := num(e.metadata[REASONING_TOKENS_KEY]);
      if n.Finite? && n.r > 0.0 {
        tokens := Some(n.r);
        next := next - {REASONING_TOKENS_KEY};
      }
    }
    patch := if reason.None? && tokens.None? then None else Some(Patch(reason, tokens, next));
  }

  method SearchReason(m: Metadata) returns (reason: Option<string>)
    ensures reason == FindReason(FINISH_REASON_KEYS, m)
  {
    reason := None;
    var i := 0;
    while i < |FINISH_REASON_KEYS| && reason.None?
      invariant i <= |FINISH_REASON_KEYS|
      invariant FindReason(FINISH_REASON_KEYS, m)
                == if reason.Some? then reason else FindReason(FINISH_REASON_KEYS[i..], m)
    {
      reason := ReasonUnder(FINISH_REASON_KEYS[i], m);
      assert FINISH_REASON_KEYS[i..][1..] == FINISH_REASON_KEYS[i + 1..];
      i := i + 1;
    }
  }

  method StripKeys(m: Metadata) returns (next: Metadata)
    ensures next == m - KeySet(FINISH_REASON_KEYS)
  {
    next := m;
    for i := 0 to |FINISH_REASON_KEYS|
      invariant next == m - KeySet(FINISH_REASON_KEYS[..i])
    {
      assert KeySet(FINISH_REASON_KEYS[..i + 1]) == KeySet(FINISH_REASON_KEYS[..i]) + {FINISH_REASON_KEYS[i]};
      next := next - {FINISH_REASON_KEYS[i]};
    }
    assert FINISH_REASON_KEYS[..|FINISH_REASON_KEYS|] == FINISH_REASON_KEYS;
  }

  function Migrated(num: ToNumber, e: Event): Event {
    match ComputePatch(num, e)
    case None => e
    case Some(p) =>
      Event(if p.finishReason.Some? then p.finishReason else e.finishReason,
            if p.reasoningTokens.Some? then Some(Finite(p.reasoningTokens.value)) else e.reasoningTokens,
            p.metadata)
  }

  // ── what an event counts for ──

  function EffectiveReason(e: Event, patch: Option<Patch>): Option<string> {
    if e.finishReason.Some? then e.finishReason else if patch.Some? then patch.value.finishReason else None
  }

  function EffectiveTokens(e: Event, patch: Option<Patch>): real {
    match e.reasoningTokens
    case Some(n) => if n.Finite? && n.r > 0.0 then n.r else 0.0
    case None => if patch.Some? && patch.value.reasoningTokens.Some? && patch.value.reasoningTokens.value > 0.0
                 then patch.value.reasoningTokens.value else 0.0
  }

  // ── a session ──

  datatype Session = Session(totalReasoningTokens: real, truncatedEvents: nat, events: seq<Event>)

  datatype Stats = Stats(eventsScanned: nat, reasonsFound: nat, reasonsWritten: nat, tokensFound: nat,
                         tokensWritten: nat, recomputed: nat)

  function MigrateAll(num: ToNumber, events: seq<Event>): seq<Event> {
    seq(|events|, i requires 0 <= i < |events| => Migrated(num, events[i]))
  }

  /** What one pass over the events adds up. */
  datatype Tally = Tally(tokens: real, truncated: nat, reasonsFound: nat, tokensFound: nat) {
    function Add(e: Event, patch: Option<Patch>): Tally {
      var reason := EffectiveReason(e, patch);
      Tally(tokens + EffectiveTokens(e, patch),
            truncated + One(reason.Some? && IsTruncated(Normalize(reason.value))),
            reasonsFound + One(patch.Some? && patch.value.finishReason.Some?),
            tokensFound + One(patch.Some? && patch.value.reasoningTokens.Some?))
    }
  }

  const NOTHING := Tally(0.0, 0, 0, 0)

  function TallyOf(num: ToNumber, events: seq<Event>): Tally {
    if events == [] then NOTHING
    else
      var e := events[|events| - 1];
      TallyOf(num, events[..|events| - 1]).Add(e, ComputePatch(num, e))
  }

  /** The session is rewritten: an event was migrated, or its roll-ups disagree with its events. */
  predicate Recomputes(s: Session, tally: Tally) {
    tally.reasonsFound + tally.tokensFound > 0
    || s.totalReasoningTokens != tally.tokens
    || s.truncatedEvents != tally.truncated
  }

  predicate RunWrites(num: ToNumber, s: Session) {
    Recomputes(s, TallyOf(num, s.events))
  }

  /** The session after one complete run. */
  function AfterRun(num: ToNumber, s: Session): Session {
    var tally := TallyOf(num, s.events);
    if Recomputes(s, tally) then Session(tally.tokens, tally.truncated, MigrateAll(num, s.events))
    else s.(events := MigrateAll(num, s.events))
  }

  function StatsOf(num: ToNumber, s: Session, dryRun: bool): Stats {
    var tally := TallyOf(num, s.events);
    Stats(|s.events|,
          tally.reasonsFound, if dryRun then 0 else tally.reasonsFound,
          tally.tokensFound, if dryRun then 0 else tally.tokensFound,
          One(Recomputes(s, tally)))
  }

  /** The stored session, and how often it was written to. */
  class SessionStore {
    var totalReasoningTokens: real
    var truncatedEvents: nat
    var events: seq<Event>
    var writes: nat

    ghost function Abs(): Session
      reads this
    {
      Session(totalReasoningTokens, truncatedEvents, events)
    }

    constructor (s: Session)
      ensures Abs() == s && writes == 0
    {
      totalReasoningTokens, truncatedEvents, events, writes := s.totalReasoningTokens, s.truncatedEvents, s.events, 0;
    }

    /** One event of `processSession`: its patch, and the write of it unless this is a dry run. */
    method ProcessEvent(num: ToNumber, i: nat, dryRun: bool) returns (patch: Option<Patch>)
      requires i < |events|
      modifies this`events, this`writes
      ensures patch == ComputePatch(num, old(events[i]))
      ensures events == if dryRun then old(events) else old(events)[i := Migrated(num, old(events[i]))]
      ensures writes == old(writes) + One(!dryRun && patch.Some?)
    {
      patch := ComputeEventPatch(num, events[i]);
      if patch.Some? && !dryRun {
        var e, p := events[i], patch.value;
        e := e.(metadata := p.metadata);
        if p.finishReason.Some? { e := e.(finishReason := p.finishReason); }
        if p.reasoningTokens.Some? { e := e.(reasoningTokens := Some(Finite(p.reasoningTokens.value))); }
        events := events[i := e];
        writes := writes + 1;
      }
    }

    /** The event loop of `processSession`. */
    method ProcessEvents(num: ToNumber, dryRun: bool) returns (tally: Tally)
      modifies this`events, this`writes
      ensures tally == TallyOf(num, old(events))
      ensures events == if dryRun then old(events) else MigrateAll(num, old(events))
      ensures writes >= old(writes) && (dryRun || tally.reasonsFound + tally.tokensFound == 0 ==> writes == old(writes))
    {
      ghost var before := events;
      tally := NOTHING;
      for i := 0 to |events|
        invariant |events| == |before|
        invariant forall j ::
                    0 <= j < |before| ==> events[j] == if dryRun || j >= i then before[j] else Migrated(num, before[j])
        invariant tally == TallyOf(num, before[..i])
        invariant writes >= old(writes)
                  && (dryRun || tally.reasonsFound + tally.tokensFound == 0 ==> writes == old(writes))
      {
        assert before[..i + 1][..i] == before[..i];
        var event := events[i];
        var patch := ProcessEvent(num, i, dryRun);
        tally := tally.Add(event, patch);
      }
      assert before[..|before|] == before;
    }

    /** `processSession`: the events in order, then the roll-ups if anything calls for it. */
    method ProcessSession(num: ToNumber, dryRun: bool) returns (stats: Stats)
      modifies this
      ensures Abs() == if dryRun then old(Abs()) else AfterRun(num, old(Abs()))
      ensures stats == StatsOf(num, old(Abs()), dryRun)
      ensures writes == old(writes) <==> dryRun || !RunWrites(num, old(Abs()))
    {
      var tally := ProcessEvents(num, dryRun);
      var changed := tally.reasonsFound + tally.tokensFound > 0;
      stats := Stats(|events|, tally.reasonsFound, if dryRun then 0 else tally.reasonsFound,
                     tally.tokensFound, if dryRun then 0 else tally.tokensFound, 0);
      if changed || totalReasoningTokens != tally.tokens || truncatedEvents != tally.truncated {
        stats := stats.(recomputed := 1);
        if !dryRun {
          totalReasoningTokens, truncatedEvents := tally.tokens, tally.truncated;
          writes := writes + 1;
        }
      }
    }
  }

  // ── running it again ──

  lemma {:induction false} FindReasonNormal(keys: seq<string>, m: Metadata)
    ensures FindReason(keys, m).Some? ==> WellShaped(FindReason(keys, m).value)
  {
    if keys != [] { FindReasonNormal(keys[1..], m); }
  }

  lemma {:induction false} FindReasonFrame(keys: seq<string>, m: Metadata, gone: set<string>)
    requires forall i :: 0 <= i < |keys| ==> keys[i] !in gone
    ensures FindReason(keys, m - gone) == FindReason(keys, m)
  {
    if keys != [] { FindReasonFrame(keys[1..], m, gone); }
  }

  /** A migrated event has nothing left to migrate. */
  lemma MigratedIsDone(num: ToNumber, e: Event)
    ensures ComputePatch(num, Migrated(num, e)) == None
  {
    FindReasonNormal(FINISH_REASON_KEYS, e.metadata);
    assert REASONING_TOKENS_KEY !in KeySet(FINISH_REASON_KEYS);
    assert forall i :: 0 <= i < |FINISH_REASON_KEYS| ==> FINISH_REASON_KEYS[i] !in {REASONING_TOKENS_KEY};
    FindReasonFrame(FINISH_REASON_KEYS, e.metadata, {REASONING_TOKENS_KEY});
  }

  /** An event whose truncation the first run does not count: an empty-string column over a truncation reason. */
  predicate HiddenTruncation(e: Event) {
    e.finishReason == Some("") && IsTruncated(FindReason(FINISH_REASON_KEYS, e.metadata))
  }

  function Hidden(events: seq<Event>): nat {
    if events == [] then 0 else Hidden(events[..|events| - 1]) + One(HiddenTruncation(events[|events| - 1]))
  }

  /** The same event counts the same before and after its migration, hidden truncations apart. */
  lemma MigratedCounts(num: ToNumber, e: Event, tally: Tally, tally': Tally, hidden: nat)
    requires tally'.tokens == tally.tokens && tally'.truncated == tally.truncated + hidden
    ensures var a, b := tally.Add(e, ComputePatch(num, e)), tally'.Add(Migrated(num, e), None);
            b.tokens == a.tokens && b.truncated == a.truncated + hidden + One(HiddenTruncation(e))
  {
    FindReasonNormal(FINISH_REASON_KEYS, e.metadata);
    var reason := FindReason(FINISH_REASON_KEYS, e.metadata);
    if reason.Some? { WellShapedIsNormal(reason.value); }
    assert Normalize("") == None;
  }

  /** A second pass migrates nothing, and counts exactly the hidden truncations more. */
  lemma {:induction false} SecondTally(num: ToNumber, events: seq<Event>)
    ensures var a, b := TallyOf(num, events), TallyOf(num, MigrateAll(num, events));
            && b.reasonsFound == 0 && b.tokensFound == 0
            && b.tokens == a.tokens && b.truncated == a.truncated + Hidden(events)
  {
    if events != [] {
      var init, e := events[..|events| - 1], events[|events| - 1];
      SecondTally(num, init);
      var after := MigrateAll(num, events);
      assert after[..|after| - 1] == MigrateAll(num, init) && after[|after| - 1] == Migrated(num, e);
      MigratedIsDone(num, e);
      MigratedCounts(num, e, TallyOf(num, init), TallyOf(num, MigrateAll(num, init)), Hidden(init));
    }
  }

  lemma {:induction false} MigrateTwice(num: ToNumber, events: seq<Event>)
    ensures MigrateAll(num, MigrateAll(num, events)) == MigrateAll(num, events)
  {
    forall i | 0 <= i < |events| ensures Migrated(num, Migrated(num, events[i])) == Migrated(num, events[i]) {
      MigratedIsDone(num, events[i]);
    }
  }

  lemma {:induction false} NothingHiddenAfter(num: ToNumber, events: seq<Event>)
    ensures Hidden(MigrateAll(num, events)) == 0
  {
    if events != [] {
      var e := events[|events| - 1];
      var after := MigrateAll(num, events);
      assert after[..|after| - 1] == MigrateAll(num, events[..|events| - 1]) && after[|after| - 1] == Migrated(num, e);
      NothingHiddenAfter(num, events[..|events| - 1]);
      MigratedIsDone(num, e);
    }
  }

  /** A second run writes to a session exactly when it held a hidden truncation. */
  lemma SecondRunWritesExactly(num: ToNumber, s: Session)
    ensures RunWrites(num, AfterRun(num, s)) <==> Hidden(s.events) > 0
  {
    SecondTally(num, s.events);
  }

  /** The migration always reaches a fixed point: whatever the stored data, a third run writes nothing. */
  lemma ThirdRunWritesNothing(num: ToNumber, s: Session)
    ensures !RunWrites(num, AfterRun(num, AfterRun(num, s)))
    ensures AfterRun(num, AfterRun(num, AfterRun(num, s))) == AfterRun(num, AfterRun(num, s))
  {
    MigrateTwice(num, s.events);
    var once := AfterRun(num, s);
    NothingHiddenAfter(num, s.events);
    SecondRunWritesExactly(num, once);
    MigrateTwice(num, once.events);
  }

  /** The documented idempotence, where it holds: no finish-reason column is the empty string. */
  lemma SecondRunWritesNothing(num: ToNumber, s: Session)
    requires forall e :: e in s.events ==> e.finishReason != Some("")
    ensures !RunWrites(num, AfterRun(num, s))
  {
    SecondRunWritesExactly(num, s);
    NoneHidden(s.events);
  }

  lemma {:induction false} NoneHidden(events: seq<Event>)
    requires forall e :: e in events ==> e.finishReason != Some("")
    ensures Hidden(events) == 0
  {
    if events != [] {
      assert events[|events| - 1] in events;
      NoneHidden(events[..|events| - 1]);
    }
  }

  /**
   * It does fail: an empty column over `finish_reason: length` is written by the first run and
   * recounted by the second.
   */
  lemma EmptyColumnIsRecounted(num: ToNumber, s: Session)
    requires s.events == [Event(Some(""), None, map["finish_reason" := Text("length")])]
    ensures RunWrites(num, AfterRun(num, s))
  {
    var e := s.events[0];
    assert s.events[..0] == [];
    assert WellShaped("length");
    WellShapedIsNormal("length");
    assert FINISH_REASON_KEYS[1..][0] == "finish_reason";
    assert FindReason(FINISH_REASON_KEYS[1..], e.metadata) == Some("length");
    assert FindReason(FINISH_REASON_KEYS, e.metadata) == Some("length");
    assert Hidden(s.events) == 1;
    SecondRunWritesExactly(num, s);
  }

  // ── what a settled session adds up to ──

  /** The reasoning tokens in the columns: positive, finite values only. */
  function ColumnTokens(events: seq<Event>): real {
    if events == [] then 0.0
    else
      var column := events[|events| - 1].reasoningTokens;
      ColumnTokens(events[..|events| - 1])
        + if column.Some? && column.value.Finite? && column.value.r > 0.0 then column.value.r else 0.0
  }

  /** The event's finish-reason column says that the answer was cut short. */
  predicate CutShort(e: Event) {
    e.finishReason.Some?
    && Normalize(e.finishReason.value) in {Some("length"), Some("max_tokens"), Some("model_length"),
                                           Some("output_token_limit"), Some("max_output_tokens")}
  }

  function ColumnTruncations(events: seq<Event>): nat {
    if events == [] then 0
        else ColumnTruncations(events[..|events| - 1]) + if CutShort(events[|events| - 1]) then 1 else 0
  }

  lemma ColumnsCount(e: Event, tally: Tally)
    ensures var t := tally.Add(e, None);
            && t.tokens == tally.tokens + (if e.reasoningTokens.Some? && e.reasoningTokens.value.Finite?
                                              && e.reasoningTokens.value.r > 0.0 then e.reasoningTokens.value.r
                                                  else 0.0)
            && t.truncated == tally.truncated + if CutShort(e) then 1 else 0
  {
  }

  /** Of events with nothing left to migrate, a pass adds up the columns and nothing else. */
  lemma {:induction false} TallyIsColumns(num: ToNumber, events: seq<Event>)
    requires forall i :: 0 <= i < |events| ==> ComputePatch(num, events[i]) == None
    ensures TallyOf(num, events).tokens == ColumnTokens(events)
    ensures TallyOf(num, events).truncated == ColumnTruncations(events)
  {
    if events != [] {
      var n := |events| - 1;
      TallyIsColumns(num, events[..n]);
      ColumnsCount(events[n], TallyOf(num, events[..n]));
    }
  }

  lemma MigratedTally(num: ToNumber, events: seq<Event>)
    ensures var after := MigrateAll(num, events);
            && TallyOf(num, after).tokens == ColumnTokens(after)
            && TallyOf(num, after).truncated == ColumnTruncations(after)
  {
    var after := MigrateAll(num, events);
    forall i | 0 <= i < |after| ensures ComputePatch(num, after[i]) == None { MigratedIsDone(num, events[i]); }
    TallyIsColumns(num, after);
  }

  /** Two runs settle a session: every event migrated, and the roll-ups the sums of the migrated columns. */
  lemma TwoRunsSettle(num: ToNumber, s: Session)
    ensures var events := MigrateAll(num, s.events);
            AfterRun(num, AfterRun(num, s)) == Session(ColumnTokens(events), ColumnTruncations(events), events)
  {
    SecondTally(num, s.events);
    MigrateTwice(num, s.events);
    MigratedTally(num, s.events);
  }

  /** One run already stores the right tokens; its truncations fall short by exactly the hidden ones. */
  lemma OneRunStores(num: ToNumber, s: Session)
    ensures var once, events := AfterRun(num, s), MigrateAll(num, s.events);
            && once.events == events && once.totalReasoningTokens == ColumnTokens(events)
            && once.truncatedEvents + Hidden(s.events) == ColumnTruncations(events)
  {
    SecondTally(num, s.events);
    MigratedTally(num, s.events);
  }

  /**
   * A run that dies after any number of events costs nothing: two complete runs end where they
   * would have ended anyway.
   */
  lemma InterruptionIsHarmless(num: ToNumber, s: Session, k: nat)
    requires k <= |s.events|
    ensures var cut := s.(events := MigrateAll(num, s.events[..k]) + s.events[k..]);
            AfterRun(num, AfterRun(num, cut)) == AfterRun(num, AfterRun(num, s))
  {
    var cut := s.(events := MigrateAll(num, s.events[..k]) + s.events[k..]);
    TwoRunsSettle(num, s);
    TwoRunsSettle(num, cut);
    var a, b := MigrateAll(num, cut.events), MigrateAll(num, s.events);
    forall i | 0 <= i < |s.events| ensures a[i] == b[i] {
      if i < k {
        assert cut.events[i] == MigrateAll(num, s.events[..k])[i];
        MigratedIsDone(num, s.events[i]);
      }
    }
    assert a == b;
  }

  /** A dry run announces what the real run does: the same finds and the same recomputation. */
  lemma DryRunAnnounces(num: ToNumber, s: Session)
    ensures var dry, real' := StatsOf(num, s, true), StatsOf(num, s, false);
            && dry.reasonsFound == real'.reasonsFound == real'.reasonsWritten
            && dry.tokensFound == real'.tokensFound == real'.tokensWritten
            && dry.recomputed == real'.recomputed
            && (real'.recomputed == 1 <==> RunWrites(num, s))
  {
  }
}
