/** Execution-scoped memory: the recent steps of one execution and a bounded summary of the older ones. */
module Memory {
  import opened Text

  datatype StepRecord = StepRecord(step: int, toolName: string, action: string, arguments: string, output: string, error: string)

  /** One memory record; the time of its last write is kept beside it by the stores. */
  datatype Session = Session(sessionId: string, executionId: string, task: string, summary: string, recentSteps: seq<StepRecord>)

  /** What the stores show: the record under a key, or an empty view named after the key. */
  type View = Session

  /** Both constructors replace values that are not positive. */
  datatype Config = Config(maxSessions: nat, maxRecentSteps: nat, maxSummaryChars: nat, sessionTtl: nat)

  predicate Normalised(cfg: Config) {
    cfg.maxSessions > 0 && cfg.maxRecentSteps > 0 && cfg.maxSummaryChars > 0 && cfg.sessionTtl > 0
  }

  // ---- Summaries -----------------------------------------------------------------------------

  /** trimText */
  function TrimText(value: string, limit: nat): string {
    if limit == 0 || |value| <= limit then value else value[..limit]
  }

  /** truncate */
  function Truncate(value: string, limit: nat): string {
    if limit == 0 || |value| <= limit then value else value[..limit] + "..."
  }

  function Field(prefix: string, value: string, limit: nat): string {
    if value == "" then "" else prefix + Truncate(value, limit)
  }

  /** The line of one step, before its end is trimmed. */
  function RawLine(s: StepRecord): (line: string)
    ensures line != "" && line[0] == '['
  {
    "[step " + Decimal(s.step) + "] tool=" + s.toolName + " action=" + s.action
    + Field(" args=", s.arguments, 120) + Field(" output=", s.output, 180) + Field(" error=", s.error, 120)
  }

  /** A field of a line: nothing of nothing, a short value in full, of a long one its beginning. */
  ghost predicate Shown(part: string, prefix: string, value: string, limit: nat) {
    && (value == "" ==> part == "")
    && (0 < |value| <= limit ==> part == prefix + value)
    && (|value| > limit ==> part == prefix + value[..limit] + "...")
  }

  /** A line names step, tool and action, and then shows what there is of arguments, output and error. */
  lemma LineTells(s: StepRecord)
    ensures exists arguments, output, error ::
      && Shown(arguments, " args=", s.arguments, 120) && Shown(output, " output=", s.output, 180) && Shown(error, " error=", s.error, 120)
      && RawLine(s) == "[step " + Decimal(s.step) + "] tool=" + s.toolName + " action=" + s.action + arguments + output + error
  {
    var arguments, output, error := Field(" args=", s.arguments, 120), Field(" output=", s.output, 180), Field(" error=", s.error, 120);
    FieldIsShown(" args=", s.arguments, 120);
    FieldIsShown(" output=", s.output, 180);
    FieldIsShown(" error=", s.error, 120);
    hide Field, Shown, Decimal;
    assert RawLine(s) == "[step " + Decimal(s.step) + "] tool=" + s.toolName + " action=" + s.action + arguments + output + error;
  }

  lemma FieldIsShown(prefix: string, value: string, limit: nat)
    requires limit > 0
    ensures Shown(Field(prefix, value, limit), prefix, value, limit)
  {
    if |value| > limit { assert prefix + value[..limit] + "..." == prefix + (value[..limit] + "..."); }
  }

  function RawLines(steps: seq<StepRecord>): string {
    if steps == [] then "" else RawLine(steps[0]) + "\n" + RawLines(steps[1..])
  }

  function SummarizeSteps(steps: seq<StepRecord>): string {
    Trim(RawLines(steps))
  }

  function MergeSummary(current: string, extra: string): string {
    if current == "" then extra else if extra == "" then current else current + "\n" + extra
  }

  // ---- Records -------------------------------------------------------------------------------

  /** Steps beyond the limit move into the summary, oldest first. */
  function Compact(cfg: Config, s: Session): Session {
    if |s.recentSteps| > cfg.maxRecentSteps then
      var overflow := |s.recentSteps| - cfg.maxRecentSteps;
      s.(summary := TrimText(MergeSummary(s.summary, SummarizeSteps(s.recentSteps[..overflow])), cfg.maxSummaryChars),
         recentSteps := s.recentSteps[overflow..])
    else s
  }

  /** normalizeState, which also bounds the summary it is given. */
  function Normalize(cfg: Config, s: Session): Session {
    Compact(cfg, s.(summary := TrimText(s.summary, cfg.maxSummaryChars)))
  }

  function KeyOr(key: string, fallback: string): string {
    if key == "" then fallback else key
  }

  function Fresh(key: string): Session {
    Session(key, "", "", "", [])
  }

  /** InMemoryStore.Save and RedisStore.Save do the same to the record they are given. */
  function Saved(cfg: Config, m: map<string, Session>, key: string, s: Session): map<string, Session> {
    var named := s.(sessionId := KeyOr(s.sessionId, "default"));
    m[KeyOr(key, named.sessionId) := Normalize(cfg, named)]
  }

  function Cleared(m: map<string, Session>, key: string): map<string, Session> {
    map k | k in m && k != KeyOr(key, "default") :: m[k]
  }

  /** InMemoryStore.AppendStep works on the stored record. */
  function AppendedInMemory(cfg: Config, m: map<string, Session>, key: string, step: StepRecord): map<string, Session> {
    var k := KeyOr(key, "default");
    var state := if k in m then m[k] else Fresh("");
    var named := state.(sessionId := KeyOr(state.sessionId, k));
    m[k := Compact(cfg, named.(recentSteps := named.recentSteps + [step]))]
  }

  /** RedisStore.AppendStep loads, which normalises, appends, and saves, which normalises again. */
  function AppendedInRedis(cfg: Config, m: map<string, Session>, key: string, step: StepRecord): map<string, Session> {
    var k := KeyOr(key, "default");
    if k in m then
      var loaded := Normalize(cfg, m[k]);
      Saved(cfg, m, k, loaded.(recentSteps := loaded.recentSteps + [step]))
    else
      Saved(cfg, m, key, Fresh(key).(recentSteps := [step]))
  }

  function ViewInMemory(m: map<string, Session>, key: string): View {
    var k := KeyOr(key, "default");
    if k in m then m[k] else Fresh(key)
  }

  function ViewInRedis(cfg: Config, m: map<string, Session>, key: string): View {
    var k := KeyOr(key, "default");
    if k in m then Normalize(cfg, m[k]) else Fresh(key)
  }

  // ---- The two stores agree ------------------------------------------------------------------

  datatype Op =
    | Save(key: string, session: Session)
    | AppendStep(key: string, step: StepRecord)
    | ClearSession(key: string)

  function InMemory(cfg: Config, m: map<string, Session>, op: Op): map<string, Session> {
    match op
    case Save(key, s) => Saved(cfg, m, key, s)
    case AppendStep(key, step) => AppendedInMemory(cfg, m, key, step)
    case ClearSession(key) => Cleared(m, key)
  }

  function InRedis(cfg: Config, m: map<string, Session>, op: Op): map<string, Session> {
    match op
    case Save(key, s) => Saved(cfg, m, key, s)
    case AppendStep(key, step) => AppendedInRedis(cfg, m, key, step)
    case ClearSession(key) => Cleared(m, key)
  }

  function PlayInMemory(cfg: Config, m: map<string, Session>, ops: seq<Op>): map<string, Session>
    decreases |ops|
  {
    if ops == [] then m else PlayInMemory(cfg, InMemory(cfg, m, ops[0]), ops[1..])
  }

  function PlayInRedis(cfg: Config, m: map<string, Session>, ops: seq<Op>): map<string, Session>
    decreases |ops|
  {
    if ops == [] then m else PlayInRedis(cfg, InRedis(cfg, m, ops[0]), ops[1..])
  }

  ghost predicate Bounded(cfg: Config, s: Session) {
    && |s.recentSteps| <= cfg.maxRecentSteps
    && |s.summary| <= cfg.maxSummaryChars
    && s.sessionId != ""
  }

  ghost predicate AllBounded(cfg: Config, m: map<string, Session>) {
    forall k | k in m :: k != "" && Bounded(cfg, m[k])
  }

  lemma NormalizeBounded(cfg: Config, s: Session)
    requires Normalised(cfg)
    ensures |Normalize(cfg, s).recentSteps| <= cfg.maxRecentSteps && |Normalize(cfg, s).summary| <= cfg.maxSummaryChars
    ensures Normalize(cfg, s) == s.(summary := Normalize(cfg, s).summary, recentSteps := Normalize(cfg, s).recentSteps)
    ensures var n := |s.recentSteps|; Normalize(cfg, s).recentSteps == if n > cfg.maxRecentSteps then s.recentSteps[n - cfg.maxRecentSteps..] else s.recentSteps
    ensures |s.summary| <= cfg.maxSummaryChars ==> Normalize(cfg, s) == Compact(cfg, s)
    ensures |s.summary| <= cfg.maxSummaryChars && |s.recentSteps| <= cfg.maxRecentSteps ==> Normalize(cfg, s) == s
  {
    hide SummarizeSteps, MergeSummary;
  }

  /** Loading a bounded record and normalising it changes nothing, so both ways of appending meet. */
  lemma AppendsAgree(cfg: Config, m: map<string, Session>, key: string, step: StepRecord)
    requires Normalised(cfg) && AllBounded(cfg, m)
    ensures AppendedInMemory(cfg, m, key, step) == AppendedInRedis(cfg, m, key, step)
    ensures AllBounded(cfg, AppendedInMemory(cfg, m, key, step))
  {
    hide Normalize, Compact;
    var k := KeyOr(key, "default");
    if k in m {
      NormalizeBounded(cfg, m[k]);
      NormalizeBounded(cfg, m[k].(recentSteps := m[k].recentSteps + [step]));
    } else {
      assert Fresh("").recentSteps + [step] == [step];
      NormalizeBounded(cfg, Fresh(k).(recentSteps := [step]));
    }
  }

  lemma OpsAgree(cfg: Config, m: map<string, Session>, op: Op)
    requires Normalised(cfg) && AllBounded(cfg, m)
    ensures InMemory(cfg, m, op) == InRedis(cfg, m, op) && AllBounded(cfg, InMemory(cfg, m, op))
  {
    hide Normalize, AppendedInMemory, AppendedInRedis;
    match op
    case Save(key, s) => NormalizeBounded(cfg, s.(sessionId := KeyOr(s.sessionId, "default")));
    case AppendStep(key, step) => AppendsAgree(cfg, m, key, step);
    case ClearSession(_) =>
  }

  lemma {:induction false} PlaysAgree(cfg: Config, m: map<string, Session>, ops: seq<Op>)
    requires Normalised(cfg) && AllBounded(cfg, m)
    ensures PlayInMemory(cfg, m, ops) == PlayInRedis(cfg, m, ops) && AllBounded(cfg, PlayInMemory(cfg, m, ops))
    decreases |ops|
  {
    hide InMemory, InRedis, AllBounded;
    if ops != [] {
      OpsAgree(cfg, m, ops[0]);
      PlaysAgree(cfg, InMemory(cfg, m, ops[0]), ops[1..]);
    }
  }

  /** After any operations both stores show the same, under every key. */
  lemma StoresAgree(cfg: Config, ops: seq<Op>, key: string)
    requires Normalised(cfg)
    ensures ViewInMemory(PlayInMemory(cfg, map[], ops), key) == ViewInRedis(cfg, PlayInRedis(cfg, map[], ops), key)
  {
    PlaysAgree(cfg, map[], ops);
    var m := PlayInMemory(cfg, map[], ops);
    if KeyOr(key, "default") in m { NormalizeBounded(cfg, m[KeyOr(key, "default")]); }
  }

  // ---- What a record remembers ---------------------------------------------------------------

  function StepLine(s: StepRecord): string {
    SummarizeSteps([s])
  }

  /** The lines of the steps, one per row. */
  function Joined(steps: seq<StepRecord>): string {
    if steps == [] then "" else MergeSummary(Joined(steps[..|steps| - 1]), StepLine(steps[|steps| - 1]))
  }

  lemma StepLineFacts(s: StepRecord)
    ensures StepLine(s) == TrimRight(RawLine(s)) && StepLine(s) != "" && StepLine(s)[0] == '['
  {
    var raw := RawLine(s);
    assert RawLines([s]) == raw + "\n";
    assert TrimLeft(raw + "\n") == raw + "\n";
    assert (raw + "\n")[..|raw + "\n"| - 1] == raw;
    TrimRightKeepsHead(raw);
  }

  lemma {:induction false} TrimRightKeepsHead(s: string)
    requires s != "" && !IsSpace(s[0])
    ensures TrimRight(s) != "" && TrimRight(s)[0] == s[0]
  {
    if IsSpace(s[|s| - 1]) {
      assert s[..|s| - 1] != "";
      TrimRightKeepsHead(s[..|s| - 1]);
    }
  }

  function Appends(cfg: Config, s: Session, steps: seq<StepRecord>): Session {
    if steps == [] then s else
    var before := Appends(cfg, s, steps[..|steps| - 1]);
    Compact(cfg, before.(recentSteps := before.recentSteps + [steps[|steps| - 1]]))
  }

  /** Trimming again and again keeps the same prefix as trimming once. */
  lemma TrimOnce(a: string, b: string, limit: nat)
    requires limit > 0 && b != ""
    ensures TrimText(MergeSummary(TrimText(a, limit), b), limit) == TrimText(MergeSummary(a, b), limit)
  {
  }

  /** One append to a record that is already full evicts exactly its oldest step. */
  lemma FullAppend(cfg: Config, before: Session, x: StepRecord)
    requires Normalised(cfg) && |before.recentSteps| == cfg.maxRecentSteps
    ensures var after := Compact(cfg, before.(recentSteps := before.recentSteps + [x]));
      && after.recentSteps == before.recentSteps[1..] + [x]
      && after.summary == TrimText(MergeSummary(before.summary, StepLine(before.recentSteps[0])), cfg.maxSummaryChars)
  {
    hide SummarizeSteps, MergeSummary, TrimText;
    var all := before.recentSteps + [x];
    assert all[..1] == [before.recentSteps[0]];
    assert all[1..] == before.recentSteps[1..] + [x];
  }

  /** The record holds the kept steps, and in its summary the lines of those gone. */
  ghost predicate Remembers(cfg: Config, r: Session, gone: seq<StepRecord>, kept: seq<StepRecord>) {
    && r.recentSteps == kept && |kept| <= cfg.maxRecentSteps
    && (gone != [] ==> |kept| == cfg.maxRecentSteps)
    && r.summary == TrimText(Joined(gone), cfg.maxSummaryChars)
  }

  lemma RoomAppend(cfg: Config, before: Session, x: StepRecord, gone: seq<StepRecord>, kept: seq<StepRecord>)
    requires Remembers(cfg, before, gone, kept) && |kept| < cfg.maxRecentSteps
    ensures Remembers(cfg, Compact(cfg, before.(recentSteps := before.recentSteps + [x])), gone, kept + [x])
  {
    hide SummarizeSteps, MergeSummary, TrimText, Joined;
  }

  lemma EvictingAppend(cfg: Config, before: Session, x: StepRecord, gone: seq<StepRecord>, kept: seq<StepRecord>)
    requires Normalised(cfg) && Remembers(cfg, before, gone, kept) && |kept| == cfg.maxRecentSteps
    ensures Remembers(cfg, Compact(cfg, before.(recentSteps := before.recentSteps + [x])), gone + [kept[0]], kept[1..] + [x])
  {
    FullAppend(cfg, before, x);
    StepLineFacts(kept[0]);
    hide StepLine, Compact;
    assert (gone + [kept[0]])[..|gone|] == gone;
    TrimOnce(Joined(gone), StepLine(kept[0]), cfg.maxSummaryChars);
  }

  lemma AppendsLast(cfg: Config, s: Session, steps: seq<StepRecord>, x: StepRecord)
    ensures Appends(cfg, s, steps + [x])
         == Compact(cfg, Appends(cfg, s, steps).(recentSteps := Appends(cfg, s, steps).recentSteps + [x]))
  {
    hide Compact;
    assert (steps + [x])[..|steps|] == steps;
  }

  lemma SplitMoves(gone: seq<StepRecord>, kept: seq<StepRecord>, x: StepRecord)
    ensures (gone + kept) + [x] == gone + (kept + [x])
    ensures kept != [] ==> (gone + kept) + [x] == (gone + [kept[0]]) + (kept[1..] + [x])
  {
  }

  lemma {:induction false} AppendsSplit(cfg: Config, s: Session, steps: seq<StepRecord>) returns (gone: seq<StepRecord>, kept: seq<StepRecord>)
    requires Normalised(cfg) && s.recentSteps == [] && s.summary == ""
    ensures steps == gone + kept && Remembers(cfg, Appends(cfg, s, steps), gone, kept)
  {
    if steps == [] {
      gone, kept := [], [];
    } else {
      hide Appends, Compact, Remembers;
      var init, x := steps[..|steps| - 1], steps[|steps| - 1];
      assert steps == init + [x];
      gone, kept := AppendsSplit(cfg, s, init);
      AppendsLast(cfg, s, init, x);
      KeptFits(cfg, Appends(cfg, s, init), gone, kept);
      SplitMoves(gone, kept, x);
      if |kept| < cfg.maxRecentSteps {
        RoomAppend(cfg, Appends(cfg, s, init), x, gone, kept);
        kept := kept + [x];
      } else {
        EvictingAppend(cfg, Appends(cfg, s, init), x, gone, kept);
        gone, kept := gone + [kept[0]], kept[1..] + [x];
      }
    }
  }

  lemma KeptFits(cfg: Config, r: Session, gone: seq<StepRecord>, kept: seq<StepRecord>)
    requires Remembers(cfg, r, gone, kept)
    ensures |kept| <= cfg.maxRecentSteps && (gone != [] ==> |kept| == cfg.maxRecentSteps)
  {
  }

  /**
    After n appends to a fresh record, the recent steps are the last min(n, MaxRecentSteps) of them, and
    the summary that was trimmed at every eviction is the first MaxSummaryChars of all evicted lines.
   */
  lemma AppendsRemember(cfg: Config, s: Session, steps: seq<StepRecord>)
    requires Normalised(cfg) && s.recentSteps == [] && s.summary == ""
    ensures var evicted := if |steps| > cfg.maxRecentSteps then |steps| - cfg.maxRecentSteps else 0;
      && Appends(cfg, s, steps).recentSteps == steps[evicted..]
      && Appends(cfg, s, steps).summary == TrimText(Joined(steps[..evicted]), cfg.maxSummaryChars)
  {
    hide Appends, TrimText, Joined;
    var gone, kept := AppendsSplit(cfg, s, steps);
    assert gone == steps[..|gone|] && kept == steps[|gone|..];
  }

  // ---- One eviction of many steps ------------------------------------------------------------

  lemma {:induction false} RawLinesAppend(xs: seq<StepRecord>, y: StepRecord)
    ensures RawLines(xs + [y]) == RawLines(xs) + RawLine(y) + "\n"
  {
    hide RawLine;
    if xs == [] {
      assert xs + [y] == [y];
    } else {
      RawLinesAppend(xs[1..], y);
      assert (xs + [y])[1..] == xs[1..] + [y];
    }
  }

  /** Steps evicted together are summarised from untrimmed lines; the last one alone has its end trimmed. */
  lemma BatchLine(xs: seq<StepRecord>, y: StepRecord)
    ensures SummarizeSteps(xs + [y]) == RawLines(xs) + StepLine(y)
  {
    hide RawLine;
    RawLinesAppend(xs, y);
    var raw := RawLines(xs + [y]);
    assert raw[0] == '[' by { HeadOfLines(xs + [y]); }
    StepLineFacts(y);
    assert raw[..|raw| - 1] == RawLines(xs) + RawLine(y);
    TrimRightOfSum(RawLines(xs), RawLine(y));
  }

  lemma HeadOfLines(xs: seq<StepRecord>)
    requires xs != []
    ensures RawLines(xs) != "" && RawLines(xs)[0] == '['
  {
    assert RawLines(xs)[0] == RawLine(xs[0])[0];
  }

  lemma {:induction false} TrimRightOfSum(a: string, b: string)
    requires TrimRight(b) != ""
    ensures TrimRight(a + b) == a + TrimRight(b)
    decreases |b|
  {
    if IsSpace(b[|b| - 1]) {
      assert (a + b)[..|a + b| - 1] == a + b[..|b| - 1];
      TrimRightOfSum(a, b[..|b| - 1]);
    }
  }

  /**
    Evicting many steps at once (a Save of a long record) gives the same summary text as evicting them
    one by one exactly when no line but the last ends in white space.
   */
  lemma {:induction false} BatchEqualsOneByOne(xs: seq<StepRecord>, y: StepRecord)
    ensures |Joined(xs + [y])| <= |SummarizeSteps(xs + [y])|
    ensures SummarizeSteps(xs + [y]) == Joined(xs + [y]) <==> forall i | 0 <= i < |xs| :: StepLine(xs[i]) == RawLine(xs[i])
  {
    hide RawLine, StepLine;
    BatchLine(xs, y);
    assert (xs + [y])[..|xs|] == xs;
    StepLineFacts(y);
    if xs != [] {
      var n := |xs| - 1;
      var ws, x := xs[..n], xs[n];
      assert xs == ws + [x];
      BatchEqualsOneByOne(ws, x);
      BatchLine(ws, x);
      RawLinesAppend(ws, x);
      StepLineFacts(x);
      TrimRightFacts(RawLine(x));
      assert Joined(xs) != "";
      SameUpToLine(RawLines(ws), RawLine(x), StepLine(x), Joined(xs), StepLine(y));
    }
  }

  /** A shorter text can only equal a longer one ending in the same line when nothing was trimmed before it. */
  lemma SameUpToLine(w: string, raw: string, line: string, joined: string, last: string)
    requires line <= raw && |joined| <= |w + line|
    ensures |joined + "\n" + last| <= |w + raw + "\n" + last|
    ensures w + raw + "\n" + last == joined + "\n" + last <==> w + line == joined && line == raw
  {
    if w + raw + "\n" + last == joined + "\n" + last {
      assert w + raw + "\n" + last == (w + raw) + ("\n" + last);
      assert joined + "\n" + last == joined + ("\n" + last);
      SumsAgree(w + raw, joined, "\n" + last);
      assert |raw| == |line|;
    }
  }

  lemma SumsAgree(a: string, b: string, tail: string)
    requires a + tail == b + tail
    ensures a == b
  {
    assert |a| == |b|;
    assert a == (a + tail)[..|a|] == (b + tail)[..|a|] == b;
  }
}
