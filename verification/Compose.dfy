/** The prompt's view of memory: long fields are cut, then the oldest steps go until the rest fits the budget. */
module Compose {
  import opened Memory

  /** Limits that are not positive do not apply. */
  datatype Budget = Budget(maxPromptTokens: int, maxRecentSteps: int, maxSummaryChars: int)

  datatype Compressed = Compressed(
    sessionId: string, task: string, summary: string, recentSteps: seq<StepRecord>, estimatedTokens: int, truncated: bool)

  function ApproxTokens(value: string): nat {
    if value == "" then 0 else |value| / 4 + 1
  }

  const MARKER := "...[truncated]"

  function TrimPromptText(value: string, limit: int): (t: string)
    ensures limit > 0 ==> |t| <= limit
    ensures limit <= 0 || |value| <= limit ==> t == value
    ensures 0 < limit < |value| ==> |t| == limit
    ensures |MARKER| < limit < |value| ==> t[limit - |MARKER|..] == MARKER && t[..limit - |MARKER|] == value[..limit - |MARKER|]
    ensures 0 < limit < |value| && limit <= |MARKER| ==> t == value[..limit]
  {
    if limit <= 0 || |value| <= limit then value
    else if limit <= |MARKER| then value[..limit]
    else value[..limit - |MARKER|] + MARKER
  }

  function OutputLimit(toolName: string): int {
    if toolName == "retrieve_rag" then 2600
    else if toolName == "get_review_evidence" then 1800
    else if toolName == "get_review_stats" then 1600
    else if toolName == "store_decision" || toolName == "llm" then 1200
    else 1000
  }

  function CompactStep(s: StepRecord): StepRecord {
    s.(arguments := TrimPromptText(s.arguments, 800), error := TrimPromptText(s.error, 800),
       output := TrimPromptText(s.output, OutputLimit(s.toolName)))
  }

  function StepTokens(s: StepRecord): nat {
    ApproxTokens(s.action) + ApproxTokens(s.toolName) + ApproxTokens(s.arguments) + ApproxTokens(s.output) + ApproxTokens(s.error)
  }

  function Tokens(steps: seq<StepRecord>): nat {
    if steps == [] then 0 else StepTokens(steps[0]) + Tokens(steps[1..])
  }

  // ---- What the budget asks for --------------------------------------------------------------

  predicate Fits(base: nat, steps: seq<StepRecord>, budget: Budget) {
    && (budget.maxRecentSteps > 0 ==> |steps| <= budget.maxRecentSteps)
    && (budget.maxPromptTokens > 0 ==> base + Tokens(steps) <= budget.maxPromptTokens)
  }

  function Compacted(steps: seq<StepRecord>): (out: seq<StepRecord>)
    ensures |out| == |steps| && forall i | 0 <= i < |steps| :: out[i] == CompactStep(steps[i])
  {
    seq(|steps|, i requires 0 <= i < |steps| => CompactStep(steps[i]))
  }

  /** `kept` is the longest suffix of `all` that fits, or nothing when none does. */
  ghost predicate LongestFitting(base: nat, all: seq<StepRecord>, budget: Budget, kept: seq<StepRecord>) {
    && |kept| <= |all| && kept == all[|all| - |kept|..]
    && (kept != [] ==> Fits(base, kept, budget))
    && forall k | 0 <= k < |all| - |kept| :: !Fits(base, all[k..], budget)
  }

  /** What the request and the summary cost. */
  function Base(task: string, summary: string): nat {
    ApproxTokens(task) + ApproxTokens(summary)
  }

  ghost predicate Composes(view: View, task: string, budget: Budget, r: Compressed) {
    && r.sessionId == view.sessionId && r.task == task
    && r.summary == TrimPromptText(view.summary, budget.maxSummaryChars)
    && LongestFitting(Base(task, r.summary), Compacted(view.recentSteps), budget, r.recentSteps)
    && r.estimatedTokens == Base(task, r.summary) + Tokens(r.recentSteps)
    && (r.truncated <==> |r.recentSteps| < |view.recentSteps|)
  }

  // ---- The algorithm -------------------------------------------------------------------------

  /** How many characters of an answer of this tool the prompt shows. */
  ghost predicate ShowsUpTo(toolName: string, limit: int) {
    && (toolName == "retrieve_rag" ==> limit == 2600)
    && (toolName == "get_review_evidence" ==> limit == 1800)
    && (toolName == "get_review_stats" ==> limit == 1600)
    && (toolName == "store_decision" || toolName == "llm" ==> limit == 1200)
    && (toolName !in ["retrieve_rag", "get_review_evidence", "get_review_stats", "store_decision", "llm"] ==> limit == 1000)
  }

  /** A step with its long fields cut, and nothing else changed. */
  ghost predicate IsCut(s: StepRecord, cut: StepRecord) {
    && cut == s.(arguments := cut.arguments, output := cut.output, error := cut.error)
    && cut.arguments == TrimPromptText(s.arguments, 800) && cut.error == TrimPromptText(s.error, 800)
    && exists limit :: ShowsUpTo(s.toolName, limit) && cut.output == TrimPromptText(s.output, limit)
  }

  lemma OutputsAreLimited(toolName: string)
    ensures ShowsUpTo(toolName, OutputLimit(toolName))
  {
    assert |"retrieve_rag"| == 12 && |"get_review_evidence"| == 19 && |"get_review_stats"| == 16 && |"store_decision"| == 14 && |"llm"| == 3;
  }

  method CompactSteps(steps: seq<StepRecord>) returns (out: seq<StepRecord>)
    ensures out == Compacted(steps) && forall i | 0 <= i < |steps| :: IsCut(steps[i], out[i])
  {
    hide TrimPromptText;
    forall i | 0 <= i < |steps|
      ensures IsCut(steps[i], CompactStep(steps[i]))
    {
      OutputsAreLimited(steps[i].toolName);
    }
    hide IsCut;
    out := [];
    for i := 0 to |steps|
      invariant |out| == i && forall j | 0 <= j < i :: out[j] == CompactStep(steps[j])
    {
      var item := steps[i];
      item := item.(arguments := TrimPromptText(item.arguments, 800));
      item := item.(error := TrimPromptText(item.error, 800));
      item := item.(output := TrimPromptText(item.output, OutputLimit(item.toolName)));
      out := out + [item];
    }
  }

  method Compose(view: View, task: string, budget: Budget) returns (r: Compressed)
    ensures Composes(view, task, budget, r) && Weighs(r) && WithinLimit(budget, r)
  {
    hide TrimPromptText, CompactStep, Compacted, ApproxTokens, Tokens, IsCut, LongestFitting, Fits, Weighs, WithinLimit;
    var summary := TrimPromptText(view.summary, budget.maxSummaryChars);
    var steps := CompactSteps(view.recentSteps);
    var recent, estimated, truncated := Shorten(steps, ApproxTokens(task) + ApproxTokens(summary), budget);
    r := Compressed(view.sessionId, task, summary, recent, estimated, truncated);
    ResultWeighs(view, task, budget, r);
  }

  /** The oldest steps go: first those beyond the limit on steps, then one by one until the rest fits or nothing is left. */
  method Shorten(steps: seq<StepRecord>, base: nat, budget: Budget) returns (recent: seq<StepRecord>, estimated: int, truncated: bool)
    ensures LongestFitting(base, steps, budget, recent)
    ensures estimated == base + Tokens(recent) && (truncated <==> |recent| < |steps|)
  {
    hide StepTokens;
    recent, truncated := steps, false;
    if budget.maxRecentSteps > 0 && |recent| > budget.maxRecentSteps {
      var overflow := |recent| - budget.maxRecentSteps;
      recent := recent[overflow..];
      truncated := true;
    }
    estimated := Estimate(base, recent);
    if budget.maxPromptTokens > 0 && estimated > budget.maxPromptTokens {
      while recent != [] && estimated > budget.maxPromptTokens
        invariant |recent| <= |steps| && recent == steps[|steps| - |recent|..]
        invariant budget.maxRecentSteps > 0 ==> |recent| <= budget.maxRecentSteps
        invariant forall k | 0 <= k < |steps| - |recent| :: !Fits(base, steps[k..], budget)
        invariant estimated == base + Tokens(recent)
        invariant truncated <==> |recent| < |steps|
      {
        assert !Fits(base, steps[|steps| - |recent|..], budget);
        var removed := recent[0];
        recent := recent[1..];
        estimated := estimated - StepTokens(removed);
        truncated := true;
      }
    }
  }

  method Estimate(base: nat, steps: seq<StepRecord>) returns (estimated: nat)
    ensures estimated == base + Tokens(steps)
  {
    hide StepTokens;
    estimated := base;
    for i := 0 to |steps|
      invariant estimated + Tokens(steps[i..]) == base + Tokens(steps)
    {
      assert steps[i..][1..] == steps[i + 1..];
      estimated := estimated + StepTokens(steps[i]);
    }
  }

  // ---- What the estimate counts --------------------------------------------------------------

  /** Nothing for nothing, and otherwise four characters a token, begun ones included. */
  lemma TokensOfText(value: string)
    ensures ApproxTokens(value) == 0 <==> value == ""
    ensures value != "" ==> 4 * (ApproxTokens(value) - 1) <= |value| < 4 * ApproxTokens(value)
  {
  }

  /** The characters of the steps that go into a prompt, and how many texts they are in. */
  function Chars(steps: seq<StepRecord>): nat {
    if steps == [] then 0 else StepChars(steps[0]) + Chars(steps[1..])
  }

  function StepChars(s: StepRecord): nat {
    |s.action| + |s.toolName| + |s.arguments| + |s.output| + |s.error|
  }

  function One(text: string): nat {
    if text == "" then 0 else 1
  }

  function Texts(steps: seq<StepRecord>): nat {
    if steps == [] then 0 else StepTexts(steps[0]) + Texts(steps[1..])
  }

  function StepTexts(s: StepRecord): nat {
    One(s.action) + One(s.toolName) + One(s.arguments) + One(s.output) + One(s.error)
  }

  lemma TextWeighs(value: string)
    ensures 4 * ApproxTokens(value) - 4 * One(value) <= |value| <= 4 * ApproxTokens(value) - One(value)
  {
    TokensOfText(value);
  }

  lemma StepWeighs(s: StepRecord)
    ensures 4 * StepTokens(s) - 4 * StepTexts(s) <= StepChars(s) <= 4 * StepTokens(s) - StepTexts(s)
  {
    hide ApproxTokens, One;
    TextWeighs(s.action);
    TextWeighs(s.toolName);
    TextWeighs(s.arguments);
    TextWeighs(s.output);
    TextWeighs(s.error);
  }

  lemma {:induction false} StepsWeigh(steps: seq<StepRecord>)
    ensures 4 * Tokens(steps) - 4 * Texts(steps) <= Chars(steps) <= 4 * Tokens(steps) - Texts(steps)
  {
    if steps != [] {
      hide StepTokens, StepTexts, StepChars;
      StepWeighs(steps[0]);
      StepsWeigh(steps[1..]);
    }
  }

  /** The estimate is worth the characters that are shown, up to less than a token for each text. */
  ghost predicate Weighs(r: Compressed) {
    var texts := One(r.task) + One(r.summary) + Texts(r.recentSteps);
    4 * r.estimatedTokens - 4 * texts <= |r.task| + |r.summary| + Chars(r.recentSteps) <= 4 * r.estimatedTokens - texts
  }

  /** Under a token limit the prompt has no more than four characters a token; only task and summary are never dropped. */
  ghost predicate WithinLimit(budget: Budget, r: Compressed) {
    budget.maxPromptTokens > 0 && r.recentSteps != [] ==>
      r.estimatedTokens <= budget.maxPromptTokens && |r.task| + |r.summary| + Chars(r.recentSteps) <= 4 * budget.maxPromptTokens
  }

  lemma ResultWeighs(view: View, task: string, budget: Budget, r: Compressed)
    requires Composes(view, task, budget, r)
    ensures Weighs(r) && WithinLimit(budget, r)
  {
    hide TrimPromptText, Compacted, Tokens, Chars, Texts;
    TokensOfText(r.task);
    TokensOfText(r.summary);
    StepsWeigh(r.recentSteps);
    hide ApproxTokens;
  }

  // ---- What it means -------------------------------------------------------------------------

  lemma {:induction false} TokensOfSuffix(steps: seq<StepRecord>, k: nat)
    requires k <= |steps|
    ensures Tokens(steps[k..]) <= Tokens(steps)
  {
    hide StepTokens;
    if k > 0 {
      TokensOfSuffix(steps[1..], k - 1);
      assert steps[1..][k - 1..] == steps[k..];
    }
  }

  /** Fitting is inherited by shorter suffixes, so what is kept contains every suffix that fits. */
  lemma KeptContainsEveryFittingSuffix(base: nat, all: seq<StepRecord>, budget: Budget, kept: seq<StepRecord>, k: nat)
    requires LongestFitting(base, all, budget, kept) && k <= |all|
    ensures Fits(base, all[k..], budget) ==> |all[k..]| <= |kept|
    ensures |all[k..]| <= |kept| && kept != [] ==> Fits(base, all[k..], budget)
  {
    if kept != [] && |all| - k <= |kept| {
      var j := |kept| - (|all| - k);
      TokensOfSuffix(kept, j);
      assert kept[j..] == all[k..];
    }
  }

  ghost predicate Covers(b': Budget, b: Budget) {
    && (b'.maxPromptTokens <= 0 || 0 < b.maxPromptTokens <= b'.maxPromptTokens)
    && (b'.maxRecentSteps <= 0 || 0 < b.maxRecentSteps <= b'.maxRecentSteps)
  }

  lemma LargerLimitsKeepMore(base: nat, all: seq<StepRecord>, b: Budget, kept: seq<StepRecord>, b': Budget, kept': seq<StepRecord>)
    requires LongestFitting(base, all, b, kept) && LongestFitting(base, all, b', kept') && Covers(b', b)
    ensures |kept| <= |kept'| && kept == kept'[|kept'| - |kept|..]
  {
    hide Tokens;
    if kept != [] {
      assert Fits(base, kept, b');
      KeptContainsEveryFittingSuffix(base, all, b', kept', |all| - |kept|);
    }
  }

  /** The inputs determine the result. */
  lemma ComposedOnce(view: View, task: string, budget: Budget, r: Compressed, r': Compressed)
    requires Composes(view, task, budget, r) && Composes(view, task, budget, r')
    ensures r == r'
  {
    hide TrimPromptText, Compacted, ApproxTokens, Fits, Tokens, LongestFitting;
    var base, all := Base(task, r.summary), Compacted(view.recentSteps);
    LargerLimitsKeepMore(base, all, budget, r.recentSteps, budget, r'.recentSteps);
    LargerLimitsKeepMore(base, all, budget, r'.recentSteps, budget, r.recentSteps);
  }

  lemma CompactStepTwice(s: StepRecord)
    ensures CompactStep(CompactStep(s)) == CompactStep(s)
  {
    hide TrimPromptText;
  }

  lemma CompactedTwice(steps: seq<StepRecord>, kept: seq<StepRecord>)
    requires |kept| <= |steps| && kept == Compacted(steps)[|steps| - |kept|..]
    ensures Compacted(kept) == kept
  {
    hide CompactStep;
    forall i | 0 <= i < |kept|
      ensures Compacted(kept)[i] == kept[i]
    {
      CompactStepTwice(steps[|steps| - |kept| + i]);
    }
  }

  lemma FittingStays(base: nat, all: seq<StepRecord>, budget: Budget, kept: seq<StepRecord>, again: seq<StepRecord>)
    requires LongestFitting(base, all, budget, kept) && LongestFitting(base, kept, budget, again)
    ensures again == kept
  {
    hide Fits;
    assert kept[0..] == kept;
    assert kept != [] ==> Fits(base, kept, budget);
  }

  /** Composing what was composed, under the same budget, changes nothing and drops nothing. */
  lemma ComposeTwice(view: View, task: string, budget: Budget, r: Compressed, r': Compressed)
    requires Composes(view, task, budget, r)
    requires Composes(view.(summary := r.summary, recentSteps := r.recentSteps), task, budget, r')
    ensures r' == r.(truncated := false)
  {
    hide *;
    var base, all := Base(task, r.summary), Compacted(view.recentSteps);
    ComposesMeans(view, task, budget, r);
    ComposesMeans(view.(summary := r.summary, recentSteps := r.recentSteps), task, budget, r');
    TrimTwice(view.summary, budget.maxSummaryChars);
    KeptIsSuffix(base, all, budget, r.recentSteps);
    CompactedTwice(view.recentSteps, r.recentSteps);
    FittingStays(base, all, budget, r.recentSteps, r'.recentSteps);
  }

  lemma ComposesMeans(view: View, task: string, budget: Budget, r: Compressed)
    requires Composes(view, task, budget, r)
    ensures r.sessionId == view.sessionId && r.task == task
    ensures r.summary == TrimPromptText(view.summary, budget.maxSummaryChars)
    ensures LongestFitting(Base(task, r.summary), Compacted(view.recentSteps), budget, r.recentSteps)
    ensures r.estimatedTokens == Base(task, r.summary) + Tokens(r.recentSteps)
    ensures r.truncated <==> |r.recentSteps| < |view.recentSteps|
  {
    hide TrimPromptText, LongestFitting, Compacted, Base, Tokens;
  }

  lemma TrimTwice(value: string, limit: int)
    ensures TrimPromptText(TrimPromptText(value, limit), limit) == TrimPromptText(value, limit)
  {
    hide TrimPromptText;
  }

  lemma KeptIsSuffix(base: nat, all: seq<StepRecord>, budget: Budget, kept: seq<StepRecord>)
    requires LongestFitting(base, all, budget, kept)
    ensures |kept| <= |all| && kept == all[|all| - |kept|..]
  {
    hide Fits;
  }

  /** A larger budget never shows fewer steps. */
  lemma LargerBudgetKeepsMore(view: View, task: string, b: Budget, r: Compressed, b': Budget, r': Compressed)
    requires Composes(view, task, b, r) && Composes(view, task, b', r')
    requires b.maxSummaryChars == b'.maxSummaryChars && Covers(b', b)
    ensures |r.recentSteps| <= |r'.recentSteps| && r.recentSteps == r'.recentSteps[|r'.recentSteps| - |r.recentSteps|..]
  {
    hide TrimPromptText, Compacted, ApproxTokens, Tokens, LongestFitting, Fits;
    LargerLimitsKeepMore(Base(task, r.summary), Compacted(view.recentSteps), b, r.recentSteps, b', r'.recentSteps);
  }
}
