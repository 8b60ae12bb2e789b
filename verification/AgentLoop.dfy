/** The staged loop: a model proposes, the stage recomputed from memory decides what may run. */
module AgentLoop {
  import opened DecisionContext
  import opened Guard
  import opened Memory
  import opened Options
  import opened Text
  import F = Finalizer
  import Grants
  import Journal
  import Locks
  import SessionScope

  // ---- Stages --------------------------------------------------------------------------------

  datatype Stage = CollectReviewEvidence | CollectESStatistics | CollectRAGHistory | CollectCampaignContext | DecisionReady

  const TOOLS := ["get_review_evidence", "get_review_stats", "retrieve_rag", "get_campaign_context"]

  function Rank(s: Stage): nat {
    match s
    case CollectReviewEvidence => 0
    case CollectESStatistics => 1
    case CollectRAGHistory => 2
    case CollectCampaignContext => 3
    case DecisionReady => 4
  }

  function RequiredTool(s: Stage): string {
    if s == DecisionReady then "" else TOOLS[Rank(s)]
  }

  predicate ToolAllowed(s: Stage, toolName: string) {
    RequiredTool(s) != "" && EqualFold(RequiredTool(s), toolName)
  }

  predicate Succeeded(r: StepRecord) {
    r.action == "tool_call" && Trim(r.error) == ""
  }

  ghost predicate Has(history: seq<StepRecord>, toolName: string) {
    exists r | r in history :: Succeeded(r) && r.toolName == toolName
  }

  /** The first tool that has not succeeded yet. */
  ghost function StageOf(history: seq<StepRecord>): Stage {
    if !Has(history, TOOLS[0]) then CollectReviewEvidence
    else if !Has(history, TOOLS[1]) then CollectESStatistics
    else if !Has(history, TOOLS[2]) then CollectRAGHistory
    else if !Has(history, TOOLS[3]) then CollectCampaignContext
    else DecisionReady
  }

  method WorkflowStage(history: seq<StepRecord>) returns (stage: Stage)
    ensures stage == StageOf(history)
  {
    hide Trim;
    var hasEvidence, hasStats, hasRAG, hasCampaign := false, false, false, false;
    for i := 0 to |history|
      invariant hasEvidence <==> Has(history[..i], TOOLS[0])
      invariant hasStats <==> Has(history[..i], TOOLS[1])
      invariant hasRAG <==> Has(history[..i], TOOLS[2])
      invariant hasCampaign <==> Has(history[..i], TOOLS[3])
    {
      var item := history[i];
      assert history[..i + 1] == history[..i] + [item];
      OneMore(history[..i], item);
      if Succeeded(item) {
        match item.toolName {
          case "get_review_evidence" => hasEvidence := true;
          case "get_review_stats" => hasStats := true;
          case "retrieve_rag" => hasRAG := true;
          case "get_campaign_context" => hasCampaign := true;
          case _ =>
        }
      }
    }
    assert history[..|history|] == history;
    stage := if !hasEvidence then CollectReviewEvidence
      else if !hasStats then CollectESStatistics
      else if !hasRAG then CollectRAGHistory
      else if !hasCampaign then CollectCampaignContext
      else DecisionReady;
  }

  lemma OneMore(history: seq<StepRecord>, r: StepRecord)
    ensures forall t :: Has(history + [r], t) <==> Has(history, t) || (Succeeded(r) && r.toolName == t)
  {
    forall t
      ensures Has(history + [r], t) <==> Has(history, t) || (Succeeded(r) && r.toolName == t)
    {
      if Has(history, t) {
        var x :| x in history && Succeeded(x) && x.toolName == t;
        assert x in history + [r];
      }
      assert r in history + [r];
    }
  }

  // ---- Progress ------------------------------------------------------------------------------

  /** The tools that succeeded, in order. */
  function Progress(history: seq<StepRecord>): seq<string> {
    if history == [] then [] else
    var r := history[|history| - 1];
    Progress(history[..|history| - 1]) + (if Succeeded(r) then [r.toolName] else [])
  }

  lemma {:induction false} HasIsProgress(history: seq<StepRecord>, toolName: string)
    ensures Has(history, toolName) <==> toolName in Progress(history)
  {
    hide Succeeded;
    if history != [] {
      var before, r := history[..|history| - 1], history[|history| - 1];
      assert history == before + [r];
      HasIsProgress(before, toolName);
      OneMore(before, r);
    }
  }

  lemma ToolsDiffer()
    ensures |TOOLS| == 4 && forall i, j | 0 <= i < j < 4 :: TOOLS[i] != TOOLS[j]
  {
    assert |TOOLS[0]| == 19 && |TOOLS[1]| == 16 && |TOOLS[2]| == 12 && |TOOLS[3]| == 20;
  }

  /** When the tools succeeded one after the other, the stage counts them. */
  lemma StageCounts(history: seq<StepRecord>)
    requires Progress(history) <= TOOLS
    ensures Rank(StageOf(history)) == |Progress(history)|
  {
    ToolsDiffer();
    HasIsProgress(history, TOOLS[0]);
    HasIsProgress(history, TOOLS[1]);
    HasIsProgress(history, TOOLS[2]);
    HasIsProgress(history, TOOLS[3]);
    var n := |Progress(history)|;
    assert forall i | 0 <= i < 4 :: TOOLS[i] in Progress(history) <==> i < n by {
      forall i | 0 <= i < 4
        ensures TOOLS[i] in Progress(history) <==> i < n
      {
        if i < n { assert Progress(history)[i] == TOOLS[i]; }
      }
    }
    hide Progress, Has;
  }

  // ---- Findings ------------------------------------------------------------------------------

  /** Marshalling and unmarshalling of tool outputs. */
  datatype Codec = Codec(encode: Output -> string, decode: string -> Output)

  ghost predicate RoundTrips(codec: Codec, o: Output) {
    Trim(codec.encode(o)) != "" && codec.decode(codec.encode(o)) == o
  }

  function FindingOf(codec: Codec, r: StepRecord): Finding {
    Finding(r.toolName, if Trim(r.output) == "" then Unusable else codec.decode(r.output))
  }

  function Findings(codec: Codec, history: seq<StepRecord>): (fs: seq<Finding>)
    ensures |fs| == |history| && forall i | 0 <= i < |history| :: fs[i] == FindingOf(codec, history[i])
  {
    seq(|history|, i requires 0 <= i < |history| => FindingOf(codec, history[i]))
  }

  lemma FindingsAppend(codec: Codec, history: seq<StepRecord>, r: StepRecord)
    ensures Findings(codec, history + [r]) == Findings(codec, history) + [FindingOf(codec, r)]
  {
  }

  /** What stands for the campaign when its tool fails during the fan-out. */
  function FallbackCampaign(activityId: string): Campaign {
    Campaign(activityId, "", "", "UNAVAILABLE", false, false, 0, 0, 0, 0)
  }

  function Fallback(toolName: string, activityId: string): Output {
    Object(None, [], if toolName == "get_campaign_context" then Some(FallbackCampaign(activityId)) else None)
  }

  /**
    What the loop keeps about the records of a run: tools succeed in order, at most one of them reports
    evidence, and a campaign that could not be had stays unavailable.
   */
  ghost predicate Kept(codec: Codec, activityId: string, history: seq<StepRecord>, degraded: bool) {
    && Progress(history) <= TOOLS
    && EvidenceCount(Findings(codec, history)) <= (if Progress(history) == [] then 0 else 1)
    && (degraded ==> Progress(history) == TOOLS && LastCampaign(Findings(codec, history)) == Some(FallbackCampaign(activityId)))
  }

  /** A record of the loop's own, or a failed call. */
  ghost predicate Idle(r: StepRecord) {
    !Succeeded(r) && (r.toolName == "agent_guard" || Trim(r.output) == "")
  }

  lemma KeptByIdle(codec: Codec, activityId: string, history: seq<StepRecord>, degraded: bool, r: StepRecord)
    requires Kept(codec, activityId, history, degraded) && Idle(r)
    ensures Kept(codec, activityId, history + [r], degraded)
    ensures Progress(history + [r]) == Progress(history)
  {
    hide Succeeded, Trim;
    FindingsAppend(codec, history, r);
    var all := history + [r];
    var fs := Findings(codec, all);
    assert all[..|all| - 1] == history && fs[..|fs| - 1] == Findings(codec, history);
    assert |"agent_guard"| == 11 && |"get_review_evidence"| == 19 && |"get_campaign_context"| == 20;
    assert EvidenceIn(fs[|fs| - 1]).None? && CampaignIn(fs[|fs| - 1]).None?;
  }

  lemma KeptByNext(codec: Codec, activityId: string, history: seq<StepRecord>, r: StepRecord)
    requires Kept(codec, activityId, history, false) && Succeeded(r)
    requires Progress(history) + [r.toolName] <= TOOLS
    ensures Kept(codec, activityId, history + [r], false)
    ensures Progress(history + [r]) == Progress(history) + [r.toolName]
  {
    hide Succeeded, Trim;
    ToolsDiffer();
    FindingsAppend(codec, history, r);
    var all := history + [r];
    var fs := Findings(codec, all);
    assert all[..|all| - 1] == history && fs[..|fs| - 1] == Findings(codec, history);
    var n := |Progress(history)|;
    assert r.toolName == TOOLS[n];
    if n > 0 { assert EvidenceIn(fs[|fs| - 1]).None?; }
  }

  lemma CampaignToolCloses(codec: Codec, activityId: string, history: seq<StepRecord>, r: StepRecord)
    requires Kept(codec, activityId, history, false) && Progress(history) == TOOLS && history != [] && r == history[|history| - 1]
    requires r.toolName == TOOLS[3] && RoundTrips(codec, Fallback(r.toolName, activityId))
    requires r.output == codec.encode(Fallback(TOOLS[3], activityId))
    ensures Kept(codec, activityId, history, true)
  {
    hide Kept, RoundTrips;
    FallbackCloses(codec, activityId, history, r);
  }

  lemma FallbackCloses(codec: Codec, activityId: string, history: seq<StepRecord>, r: StepRecord)
    requires Kept(codec, activityId, history, false) && Progress(history) == TOOLS && history != [] && r == history[|history| - 1]
    requires r.toolName == "get_campaign_context" && RoundTrips(codec, Fallback(r.toolName, activityId))
    requires r.output == codec.encode(Fallback(r.toolName, activityId))
    ensures Kept(codec, activityId, history, true)
  {
    FallbackReported(codec, activityId, r);
    CampaignReported(codec, history, FallbackCampaign(activityId));
    hide Progress, EvidenceCount, Findings, LastCampaign, FallbackCampaign;
  }

  lemma FallbackReported(codec: Codec, activityId: string, r: StepRecord)
    requires r.toolName == "get_campaign_context" && RoundTrips(codec, Fallback(r.toolName, activityId))
    requires r.output == codec.encode(Fallback(r.toolName, activityId))
    ensures CampaignIn(FindingOf(codec, r)) == Some(FallbackCampaign(activityId))
  {
    hide Trim, FallbackCampaign;
  }

  lemma CampaignReported(codec: Codec, history: seq<StepRecord>, k: Campaign)
    requires history != [] && CampaignIn(FindingOf(codec, history[|history| - 1])) == Some(k)
    ensures LastCampaign(Findings(codec, history)) == Some(k)
  {
    hide CampaignIn, FindingOf;
  }

  // ---- The loop ------------------------------------------------------------------------------

  datatype ExecutionInput = ExecutionInput(sessionId: string, executionId: string, task: string, activityId: string, policyVersion: string)

  datatype ToolResult = Observed(observation: string) | Erred(message: string)

  /** What an execution meets with: the model's reply in each round, counted from 0, and what each tool answers in each step. */
  datatype World = World(reply: nat -> Option<Decision>, tool: (nat, string) -> ToolResult)

  datatype StepResult = StepResult(number: int, toolName: string, arguments: string, observation: string, error: string)

  datatype Result = Refused(problem: string) | Finished(finalAnswer: string, steps: seq<StepResult>, summary: string, completed: bool)

  /** A final decision that was accepted, and what the finalizer made of it. */
  datatype Final = Final(history: seq<StepRecord>, input: F.Input, decision: Decision, step: Option<F.Step>, trace: Option<F.Trace>)

  /**
    What a run did until its final decision, if it came to one: the stage of every step, the records each step
    added and the results it reported.
   */
  datatype Run = Run(
    records: seq<StepRecord>, stages: seq<Stage>, moves: seq<seq<StepRecord>>, results: seq<seq<StepResult>>, degraded: bool, finals: seq<Final>)

  ghost function Flat<T>(parts: seq<seq<T>>): seq<T> {
    if parts == [] then [] else Flat(parts[..|parts| - 1]) + parts[|parts| - 1]
  }

  /** The results report what was recorded. */
  ghost predicate Mirrors(steps: seq<StepResult>, added: seq<StepRecord>) {
    |steps| == |added| && forall i | 0 <= i < |steps| ::
      && steps[i].number == added[i].step && steps[i].toolName == added[i].toolName && steps[i].arguments == added[i].arguments
      && steps[i].observation == added[i].output && (added[i].error != "" ==> steps[i].error == added[i].error)
  }

  /** Four results, the last of which is a campaign that could not be had. */
  predicate Degrades(steps: seq<StepResult>) {
    |steps| == 4 && steps[3].error != ""
  }

  ghost predicate NeverBack(stages: seq<Stage>) {
    forall i, j | 0 <= i < j < |stages| :: Rank(stages[i]) <= Rank(stages[j])
  }

  /** The memory under the scope shows exactly these records. */
  ghost predicate Shows(cfg: Config, memory: map<string, Session>, scope: string, records: seq<StepRecord>) {
    scope != "" && scope in memory && memory[scope].recentSteps == records && |records| <= cfg.maxRecentSteps
  }

  function AppendAll(cfg: Config, memory: map<string, Session>, scope: string, added: seq<StepRecord>): map<string, Session> {
    if added == [] then memory else
    AppendedInMemory(cfg, AppendAll(cfg, memory, scope, added[..|added| - 1]), scope, added[|added| - 1])
  }

  lemma {:induction false} AppendsShow(cfg: Config, memory: map<string, Session>, scope: string, records: seq<StepRecord>, added: seq<StepRecord>)
    requires Shows(cfg, memory, scope, records) && |records| + |added| <= cfg.maxRecentSteps
    ensures Shows(cfg, AppendAll(cfg, memory, scope, added), scope, records + added)
  {
    hide SummarizeSteps, MergeSummary, TrimText;
    if added == [] {
      assert records + added == records;
    } else {
      var n := |added| - 1;
      AppendsShow(cfg, memory, scope, records, added[..n]);
      assert records + added == records + added[..n] + [added[n]];
    }
  }

  lemma {:induction false} AppendsJoin(cfg: Config, memory: map<string, Session>, scope: string, xs: seq<StepRecord>, ys: seq<StepRecord>)
    ensures AppendAll(cfg, AppendAll(cfg, memory, scope, xs), scope, ys) == AppendAll(cfg, memory, scope, xs + ys)
  {
    hide AppendedInMemory;
    if ys == [] {
      assert xs + ys == xs;
    } else {
      var n := |ys| - 1;
      AppendsJoin(cfg, memory, scope, xs, ys[..n]);
      assert (xs + ys)[..|xs + ys| - 1] == xs + ys[..n];
    }
  }

  lemma AppendNothing(cfg: Config, memory: map<string, Session>, scope: string)
    ensures AppendAll(cfg, memory, scope, []) == memory
  {
  }

  lemma AppendNext(cfg: Config, memory: map<string, Session>, scope: string, added: seq<StepRecord>, r: StepRecord)
    ensures AppendAll(cfg, memory, scope, added + [r]) == AppendedInMemory(cfg, AppendAll(cfg, memory, scope, added), scope, r)
  {
    assert (added + [r])[..|added|] == added;
  }

  lemma AppendOne(cfg: Config, memory: map<string, Session>, scope: string, r: StepRecord)
    ensures AppendAll(cfg, memory, scope, [r]) == AppendedInMemory(cfg, memory, scope, r)
  {
    assert [r][..0] == [];
  }

  class Agent {
    const cfg: Config
    const maxSteps: nat
    const registry: set<string>
    const codec: Codec
    const finalizer: F.ReviewCouponFinalizer
    const finalizing: bool
    var memory: map<string, Session>

    constructor (cfg: Config, maxSteps: int, registry: set<string>, codec: Codec, finalizer: F.ReviewCouponFinalizer, finalizing: bool)
      ensures this.cfg == cfg && this.registry == registry && this.codec == codec
      ensures this.finalizer == finalizer && this.finalizing == finalizing && memory == map[]
      ensures this.maxSteps == if maxSteps <= 0 then 5 else maxSteps
    {
      this.cfg, this.registry, this.codec, this.finalizer, this.finalizing := cfg, registry, codec, finalizer, finalizing;
      this.maxSteps := if maxSteps <= 0 then 5 else maxSteps;
      memory := map[];
    }

    /** The memory can hold every record of a run, and no tool is registered under another spelling of a staged tool's name. */
    ghost predicate Ample() {
      cfg.maxRecentSteps >= maxSteps + 2 && forall t, i | t in registry && 0 <= i < |TOOLS| && EqualFold(TOOLS[i], t) :: t == TOOLS[i]
    }

    function History(scope: string): seq<StepRecord>
      reads this
    {
      ViewInMemory(memory, scope).recentSteps
    }

    method AppendStep(scope: string, r: StepRecord)
      modifies this
      ensures memory == AppendedInMemory(cfg, old(memory), scope, r)
    {
      memory := AppendedInMemory(cfg, memory, scope, r);
    }

    /** The record of a tool call. */
    function Recorded(stepNo: nat, toolName: string, arguments: string, result: ToolResult): StepRecord {
      match result
      case Observed(observation) => StepRecord(stepNo, toolName, "tool_call", arguments, observation, "")
      case Erred(message) => StepRecord(stepNo, toolName, "tool_call", arguments, "", message)
    }

    /** A tool call; a tool that is not registered leaves no record. */
    method ExecuteTool(scope: string, stepNo: nat, toolName: string, arguments: string, world: World)
        returns (step: StepResult, record: Option<StepRecord>)
      modifies this
      ensures record == if toolName in registry then Some(Recorded(stepNo, toolName, arguments, world.tool(stepNo, toolName))) else None
      ensures record.Some? ==>
        && (record.value.step, record.value.toolName, record.value.action, record.value.arguments) == (stepNo, toolName, "tool_call", arguments)
        && match world.tool(stepNo, toolName)
           case Observed(text) => record.value.output == text && record.value.error == ""
           case Erred(message) => record.value.output == "" && record.value.error == message
      ensures record.None? ==> memory == old(memory) && step == StepResult(stepNo, toolName, arguments, "", "tool not found: " + toolName)
      ensures record.Some? ==> memory == AppendedInMemory(cfg, old(memory), scope, record.value)
      ensures record.Some? ==> Mirrors([step], [record.value]) && step.error == record.value.error
    {
      if toolName !in registry {
        return StepResult(stepNo, toolName, arguments, "", "tool not found: " + toolName), None;
      }
      var result := world.tool(stepNo, toolName);
      var r := StepRecord(stepNo, toolName, "tool_call", arguments, "", "");
      match result {
        case Erred(message) =>
          r := r.(error := message);
          AppendStep(scope, r);
          return StepResult(stepNo, toolName, arguments, "", message), Some(r);
        case Observed(observation) =>
          r := r.(output := observation);
          AppendStep(scope, r);
          return StepResult(stepNo, toolName, arguments, observation, ""), Some(r);
      }
    }

    method AppendCorrection(scope: string, stepNo: nat, reason: string) returns (r: StepRecord)
      modifies this
      ensures memory == AppendedInMemory(cfg, old(memory), scope, r)
      ensures Idle(r) && r.action == "correction" && r.toolName == "agent_guard"
    {
      var payload: string := *;
      r := StepRecord(stepNo, "agent_guard", "correction", "", payload, reason);
      AppendStep(scope, r);
    }

    /** What is recorded for a tool of the fan-out, and the problem that is reported with it: a fallback if the tool is missing or fails. */
    function Auto(stepNo: nat, toolName: string, input: ExecutionInput, world: World): (string, string) {
      var fallback := codec.encode(Fallback(toolName, input.activityId));
      if toolName !in registry then (fallback, "degraded: context canceled") else
      match world.tool(stepNo, toolName)
      case Erred(message) => (fallback, "degraded: " + message)
      case Observed(text) => (text, "")
    }

    method AutoObservation(stepNo: nat, toolName: string, input: ExecutionInput, world: World) returns (observation: string, problem: string)
      ensures (observation, problem) == Auto(stepNo, toolName, input, world)
      ensures problem != "" <==> toolName !in registry || world.tool(stepNo, toolName).Erred?
      ensures problem != "" ==> observation == codec.encode(Fallback(toolName, input.activityId))
      ensures problem == "" ==> world.tool(stepNo, toolName) == Observed(observation)
    {
      if toolName !in registry {
        return codec.encode(Fallback(toolName, input.activityId)), "degraded: context canceled";
      }
      var result := world.tool(stepNo, toolName);
      match result {
        case Erred(message) => return codec.encode(Fallback(toolName, input.activityId)), "degraded: " + message;
        case Observed(text) => return text, "";
      }
    }

    /** Results and records of the fan-out so far are what its tools, or their fallbacks, said. */
    ghost predicate Fetched(stepNo: nat, input: ExecutionInput, world: World, steps: seq<StepResult>, added: seq<StepRecord>) {
      && FansOut(added) && Mirrors(steps, added)
      && forall i | 0 <= i < |added| ::
        added[i].output == Auto(stepNo, TOOLS[i + 1], input, world).0 && steps[i].error == Auto(stepNo, TOOLS[i + 1], input, world).1
    }

    /** After evidence: statistics, similar cases and the campaign are fetched together and recorded in this order. */
    method RunStatsRAGAndCampaignAfterEvidence(scope: string, stepNo: nat, observation: string, input: ExecutionInput, world: World)
        returns (steps: seq<StepResult>, added: seq<StepRecord>)
      modifies this
      ensures memory == AppendAll(cfg, old(memory), scope, added)
      ensures |added| == if NamesReview(observation) then 3 else 0
      ensures Fetched(stepNo, input, world, steps, added)
    {
      steps, added := [], [];
      var payload := codec.decode(observation);
      if payload.Unusable? || payload.evidence.None? || payload.evidence.value.reviewId <= 0 || payload.evidence.value.storeId <= 0 {
        return;
      }
      steps, added := FanOut(scope, stepNo, input, world);
    }

    method FanOut(scope: string, stepNo: nat, input: ExecutionInput, world: World) returns (steps: seq<StepResult>, added: seq<StepRecord>)
      modifies this
      ensures memory == AppendAll(cfg, old(memory), scope, added) && |added| == 3
      ensures Fetched(stepNo, input, world, steps, added)
    {
      steps, added := [], [];
      assert |TOOLS| == 4;
      hide TOOLS, Auto, AppendedInMemory, AppendAll, Fetched;
      AppendNothing(cfg, memory, scope);
      FetchedNothing(stepNo, input, world);
      for i := 1 to 4
        invariant |added| == i - 1 && memory == AppendAll(cfg, old(memory), scope, added) && Fetched(stepNo, input, world, steps, added)
      {
        var r, problem := FetchOne(scope, stepNo, TOOLS[i], input, world);
        AppendNext(cfg, old(memory), scope, added, r);
        var step := StepResult(r.step, TOOLS[i], r.arguments, r.output, problem);
        FetchedFurther(stepNo, input, world, steps, added, step, r);
        steps, added := steps + [step], added + [r];
      }
    }

    lemma FetchedNothing(stepNo: nat, input: ExecutionInput, world: World)
      ensures Fetched(stepNo, input, world, [], [])
    {
    }

    lemma FetchedFurther(stepNo: nat, input: ExecutionInput, world: World, steps: seq<StepResult>, added: seq<StepRecord>, step: StepResult, r: StepRecord)
      requires Fetched(stepNo, input, world, steps, added) && |added| < 3
      requires Succeeded(r) && r.error == "" && r.toolName == TOOLS[|added| + 1] && r.output == Auto(stepNo, r.toolName, input, world).0
      requires step == StepResult(r.step, r.toolName, r.arguments, r.output, Auto(stepNo, r.toolName, input, world).1)
      ensures Fetched(stepNo, input, world, steps + [step], added + [r])
    {
      hide TOOLS, Auto, Succeeded;
      FansFurther(added, r);
      MirrorsFurther(steps, added, step, r);
      hide FansOut, Mirrors;
    }

    /** The result of one tool of the fan-out, recorded without an error even when its fallback stands in. */
    method FetchOne(scope: string, stepNo: nat, toolName: string, input: ExecutionInput, world: World) returns (r: StepRecord, problem: string)
      modifies this
      ensures memory == AppendedInMemory(cfg, old(memory), scope, r) && Succeeded(r) && r.toolName == toolName && r.error == ""
      ensures (r.output, problem) == Auto(stepNo, toolName, input, world)
    {
      hide Auto;
      var arguments: string, output := *, "";
      output, problem := AutoObservation(stepNo, toolName, input, world);
      r := StepRecord(|History(scope)| + 1, toolName, "tool_call", arguments, output, "");
      AppendStep(scope, r);
    }

    /** The assumptions under which nothing is forgotten: room for every record, canonical names, faithful marshalling. */
    ghost predicate Careful(input: ExecutionInput) {
      Ample() && RoundTrips(codec, Fallback(TOOLS[3], input.activityId))
    }

    /** One reply that is not an accepted final decision. */
    method Act(scope: string, stepNo: nat, stage: Stage, d: Decision, input: ExecutionInput, world: World)
        returns (steps: seq<StepResult>, added: seq<StepRecord>)
      modifies this
      ensures memory == AppendAll(cfg, old(memory), scope, added)
      ensures Moves(stage, added, Degrades(steps), input) && Follows(stepNo, stage, d, input, world, added, steps)
    {
      hide Trim, Fetched, Recorded;
      steps, added := [], [];
      ghost var before := memory;
      if EqualFold(d.kind, "final") {
        assert |ToLower(d.kind)| == |ToLower("final")| != |ToLower("tool_call")|;
        var r := AppendCorrection(scope, stepNo, "final not allowed before decision_ready");
        AppendOne(cfg, before, scope, r);
        return [], [r];
      }
      if !EqualFold(d.kind, "tool_call") {
        var r := AppendCorrection(scope, stepNo, "unsupported decision type: " + d.kind);
        AppendOne(cfg, before, scope, r);
        return [], [r];
      }
      if !ToolAllowed(stage, d.toolName) {
        var r := AppendCorrection(scope, stepNo, "tool " + d.toolName + " not allowed in this stage");
        AppendOne(cfg, before, scope, r);
        return [], [r];
      }
      hide Moves, Follows;
      steps, added := RunTool(scope, stepNo, stage, d, input, world);
    }

    /** An allowed tool call, with the fan-out after evidence. */
    method RunTool(scope: string, stepNo: nat, stage: Stage, d: Decision, input: ExecutionInput, world: World)
        returns (steps: seq<StepResult>, added: seq<StepRecord>)
      requires EqualFold(d.kind, "tool_call") && ToolAllowed(stage, d.toolName)
      modifies this
      ensures memory == AppendAll(cfg, old(memory), scope, added)
      ensures Moves(stage, added, Degrades(steps), input) && Follows(stepNo, stage, d, input, world, added, steps)
    {
      assert |TOOLS| == 4;
      hide Trim, EqualFold, ToolAllowed, NamesReview, AppendedInMemory, AppendAll, Fallback, TOOLS, Recorded, Fetched, Moves, Follows;
      ghost var before := memory;
      var step, record := ExecuteTool(scope, stepNo, d.toolName, d.arguments, world);
      steps := [step];
      if record.None? {
        added := [];
        AppendNothing(cfg, before, scope);
        MissingToolMoves(stepNo, stage, d, input, world, steps);
        return;
      }
      added := [record.value];
      AppendOne(cfg, before, scope, record.value);
      if step.error == "" && EqualFold(d.toolName, TOOLS[0]) {
        var more, results := RunStatsRAGAndCampaignAfterEvidence(scope, stepNo, step.observation, input, world);
        AppendsJoin(cfg, before, scope, added, results);
        CallMoves(stepNo, stage, d, input, world, step, record.value, more, results);
        steps, added := steps + more, added + results;
      } else {
        FetchedNothing(stepNo, input, world);
        CallMoves(stepNo, stage, d, input, world, step, record.value, [], []);
        assert steps + [] == steps && added + [] == added;
      }
    }

    lemma MissingToolMoves(stepNo: nat, stage: Stage, d: Decision, input: ExecutionInput, world: World, steps: seq<StepResult>)
      requires EqualFold(d.kind, "tool_call") && ToolAllowed(stage, d.toolName) && d.toolName !in registry
      requires steps == [StepResult(stepNo, d.toolName, d.arguments, "", "tool not found: " + d.toolName)]
      ensures Moves(stage, [], Degrades(steps), input) && Follows(stepNo, stage, d, input, world, [], steps)
    {
      hide EqualFold, ToolAllowed;
    }

    lemma CallMoves(stepNo: nat, stage: Stage, d: Decision, input: ExecutionInput, world: World, step: StepResult, r: StepRecord,
                    more: seq<StepResult>, results: seq<StepRecord>)
      requires EqualFold(d.kind, "tool_call") && ToolAllowed(stage, d.toolName) && d.toolName in registry
      requires r == Recorded(stepNo, d.toolName, d.arguments, world.tool(stepNo, d.toolName)) && Mirrors([step], [r]) && step.error == r.error
      requires Fetched(stepNo, input, world, more, results)
      requires |results| == if r.error == "" && EqualFold(d.toolName, TOOLS[0]) && NamesReview(r.output) then 3 else 0
      ensures Moves(stage, [r] + results, Degrades([step] + more), input)
      ensures Follows(stepNo, stage, d, input, world, [r] + results, [step] + more)
    {
      hide EqualFold, ToolAllowed, NamesReview, TOOLS, Succeeded, Fallback, Moves, Follows;
      MirrorsJoin([step], [r], more, results);
      RecordedFacts(stepNo, d, world, r);
      FallbackIsShown(stepNo, input, world, more, results);
      assert ([r] + results)[1..] == results && ([step] + more)[1..] == more;
      CallFollows(stepNo, stage, d, input, world, step, r, more, results);
      CallMovesOn(stage, input, step, r, more, results);
    }

    lemma RecordedFacts(stepNo: nat, d: Decision, world: World, r: StepRecord)
      requires r == Recorded(stepNo, d.toolName, d.arguments, world.tool(stepNo, d.toolName))
      ensures r.action == "tool_call" && r.toolName == d.toolName && (r.error != "" ==> r.output == "")
    {
    }

    /** A campaign result with a problem goes with the recorded fallback. */
    lemma FallbackIsShown(stepNo: nat, input: ExecutionInput, world: World, more: seq<StepResult>, results: seq<StepRecord>)
      requires Fetched(stepNo, input, world, more, results)
      ensures |more| == |results| <= 3
      ensures |results| == 3 ==> FannedOut(results)
      ensures |results| == 3 && more[2].error != "" ==> results[2].output == codec.encode(Fallback(TOOLS[3], input.activityId))
      ensures |results| == 3 ==> (more[2].error != "" <==> TOOLS[3] !in registry || world.tool(stepNo, TOOLS[3]).Erred?)
    {
      hide Succeeded, Fallback;
    }

    lemma CallFollows(stepNo: nat, stage: Stage, d: Decision, input: ExecutionInput, world: World, step: StepResult, r: StepRecord,
                      more: seq<StepResult>, results: seq<StepRecord>)
      requires EqualFold(d.kind, "tool_call") && ToolAllowed(stage, d.toolName) && d.toolName in registry
      requires r == Recorded(stepNo, d.toolName, d.arguments, world.tool(stepNo, d.toolName))
      requires step.error == r.error && Mirrors([step] + more, [r] + results) && Fetched(stepNo, input, world, more, results)
      requires ([r] + results)[1..] == results && ([step] + more)[1..] == more
      requires |results| == if r.error == "" && EqualFold(d.toolName, TOOLS[0]) && NamesReview(r.output) then 3 else 0
      ensures Follows(stepNo, stage, d, input, world, [r] + results, [step] + more)
    {
      hide EqualFold, ToolAllowed, NamesReview, Mirrors, Fetched, TOOLS, Recorded;
    }

    lemma CallMovesOn(stage: Stage, input: ExecutionInput, step: StepResult, r: StepRecord, more: seq<StepResult>, results: seq<StepRecord>)
      requires r.action == "tool_call" && ToolAllowed(stage, r.toolName) && r.toolName in registry && (r.error != "" ==> r.output == "")
      requires |more| == |results| && (results == [] || (FannedOut(results) && r.error == "" && EqualFold(r.toolName, TOOLS[0])))
      requires ([r] + results)[1..] == results
      requires |results| == 3 && more[2].error != "" ==> results[2].output == codec.encode(Fallback(TOOLS[3], input.activityId))
      ensures Moves(stage, [r] + results, Degrades([step] + more), input)
    {
      hide EqualFold, ToolAllowed, TOOLS, Succeeded, Fallback, FansOut;
    }

    /** What one reply can add to the records. */
    ghost predicate Moves(stage: Stage, added: seq<StepRecord>, degraded: bool, input: ExecutionInput) {
      || (added == [] && !degraded)
      || (|added| == 1 && Idle(added[0]) && !degraded)
      || (|added| == 1 && Called(stage, added[0]) && !degraded)
      || (|added| == 4 && Called(stage, added[0]) && EqualFold(added[0].toolName, TOOLS[0]) && added[0].error == "" && FannedOut(added[1..])
          && (degraded ==> added[3].output == codec.encode(Fallback(TOOLS[3], input.activityId))))
    }

    /** What one reply must add to the records and report, given what the tools answer. */
    ghost predicate Follows(stepNo: nat, stage: Stage, d: Decision, input: ExecutionInput, world: World, added: seq<StepRecord>, steps: seq<StepResult>) {
      if !EqualFold(d.kind, "tool_call") || !ToolAllowed(stage, d.toolName) then
        |added| == 1 && added[0].action == "correction" && added[0].toolName == "agent_guard" && steps == []
      else if d.toolName !in registry then
        added == [] && |steps| == 1 && steps[0].toolName == d.toolName && steps[0].error == "tool not found: " + d.toolName
      else
        && Mirrors(steps, added) && added != [] && steps[0].error == added[0].error
        && added[0] == Recorded(stepNo, d.toolName, d.arguments, world.tool(stepNo, d.toolName))
        && |added| == (if added[0].error == "" && EqualFold(d.toolName, TOOLS[0]) && NamesReview(added[0].output) then 4 else 1)
        && Fetched(stepNo, input, world, steps[1..], added[1..])
    }

    /** The evidence names the review and the store that the fan-out needs. */
    predicate NamesReview(observation: string) {
      var payload := codec.decode(observation);
      payload.Object? && payload.evidence.Some? && payload.evidence.value.reviewId > 0 && payload.evidence.value.storeId > 0
    }

    ghost predicate Called(stage: Stage, r: StepRecord) {
      r.action == "tool_call" && ToolAllowed(stage, r.toolName) && r.toolName in registry && (r.error != "" ==> r.output == "")
    }

    /** Whatever the model replies, what is kept stays kept. */
    lemma MoveKeeps(stage: Stage, records: seq<StepRecord>, degraded: bool, added: seq<StepRecord>, moved: bool, input: ExecutionInput)
      requires Careful(input) && Kept(codec, input.activityId, records, degraded)
      requires stage == StageOf(records) && Moves(stage, added, moved, input)
      ensures Kept(codec, input.activityId, records + added, degraded || moved)
      ensures Progress(records) <= Progress(records + added)
      ensures |added| <= 1 || (|added| == 4 && Progress(records) == [] && Progress(records + added) == TOOLS)
    {
      hide Kept, Has, Succeeded, Trim;
      KeptFacts(codec, input.activityId, records, degraded);
      StageCounts(records);
      if added == [] {
        assert records + added == records;
      } else if |added| == 1 && Idle(added[0]) {
        assert [added[0]] == added;
        KeptByIdle(codec, input.activityId, records, degraded, added[0]);
      } else if |added| == 1 {
        assert [added[0]] == added;
        CallKeeps(stage, records, degraded, added[0], input);
      } else {
        FanOutKeeps(stage, records, degraded, added, moved, input);
      }
    }

    lemma KeptFacts(codec: Codec, activityId: string, records: seq<StepRecord>, degraded: bool)
      requires Kept(codec, activityId, records, degraded)
      ensures Progress(records) <= TOOLS && (degraded ==> Progress(records) == TOOLS)
    {
    }

    lemma CanonicalName(stage: Stage, r: StepRecord)
      requires Ample() && Called(stage, r)
      ensures Rank(stage) < 4 && r.toolName == TOOLS[Rank(stage)]
    {
    }

    lemma CallKeeps(stage: Stage, records: seq<StepRecord>, degraded: bool, r: StepRecord, input: ExecutionInput)
      requires Careful(input) && Kept(codec, input.activityId, records, degraded)
      requires stage == StageOf(records) && Called(stage, r)
      ensures Kept(codec, input.activityId, records + [r], degraded)
      ensures Progress(records + [r]) == Progress(records) + if Succeeded(r) then [r.toolName] else []
    {
      hide Kept, Trim, Has, Progress, StageOf;
      KeptFacts(codec, input.activityId, records, degraded);
      StageCounts(records);
      CanonicalName(stage, r);
      if Succeeded(r) {
        hide Succeeded;
        KeptByNext(codec, input.activityId, records, r);
      } else {
        BlankIsBlank();
        assert Idle(r);
        hide Succeeded;
        KeptByIdle(codec, input.activityId, records, degraded, r);
        assert Progress(records) + [] == Progress(records);
      }
    }

    lemma BlankIsBlank()
      ensures Trim("") == ""
    {
    }

    lemma FanOutKeeps(stage: Stage, records: seq<StepRecord>, degraded: bool, added: seq<StepRecord>, moved: bool, input: ExecutionInput)
      requires Careful(input) && Kept(codec, input.activityId, records, degraded)
      requires stage == StageOf(records) && Moves(stage, added, moved, input) && |added| == 4
      ensures Kept(codec, input.activityId, records + added, degraded || moved)
      ensures Progress(records) == [] && Progress(records + added) == TOOLS
    {
      hide *;
      FourMoves(stage, added, moved, input);
      EvidenceKeeps(stage, records, degraded, added[0], input);
      FannedOutKeeps(codec, input.activityId, records + [added[0]], added[1..]);
      assert records + [added[0]] + added[1..] == records + added;
      if moved { CampaignToolCloses(codec, input.activityId, records + added, added[3]); }
    }

    lemma FourMoves(stage: Stage, added: seq<StepRecord>, moved: bool, input: ExecutionInput)
      requires Careful(input) && Moves(stage, added, moved, input) && |added| == 4
      ensures Called(stage, added[0]) && EqualFold(added[0].toolName, TOOLS[0]) && added[0].error == "" && FannedOut(added[1..])
      ensures added[3].toolName == TOOLS[3] && RoundTrips(codec, Fallback(added[3].toolName, input.activityId))
      ensures moved ==> added[3].output == codec.encode(Fallback(TOOLS[3], input.activityId))
    {
      hide Called, EqualFold, RoundTrips, Fallback, Ample;
      assert added[3] == added[1..][2];
    }

    lemma EvidenceKeeps(stage: Stage, records: seq<StepRecord>, degraded: bool, r: StepRecord, input: ExecutionInput)
      requires Careful(input) && Kept(codec, input.activityId, records, degraded)
      requires stage == StageOf(records) && Called(stage, r) && EqualFold(r.toolName, TOOLS[0]) && r.error == ""
      ensures Kept(codec, input.activityId, records + [r], false) && !degraded
      ensures Progress(records) == [] && Progress(records + [r]) == [TOOLS[0]]
    {
      ToolsDiffer();
      BlankIsBlank();
      KeptFacts(codec, input.activityId, records, degraded);
      StageCounts(records);
      CanonicalName(stage, r);
      assert Rank(stage) == 0 by {
        assert |ToLower(r.toolName)| == |ToLower(TOOLS[0])|;
        assert |TOOLS[0]| == 19;
      }
      assert Succeeded(r);
      hide Kept, Succeeded, Trim, Has, Progress, EqualFold;
      CallKeeps(stage, records, degraded, r, input);
    }

    // ---- Whole runs --------------------------------------------------------------------------

    /** What holds before a step of a careful run. */
    ghost predicate Going(memory: map<string, Session>, scope: string, stepNo: nat, run: Run, input: ExecutionInput) {
      && Kept(codec, input.activityId, run.records, run.degraded)
      && |run.records| + 1 <= stepNo + (if Progress(run.records) == [] then 0 else 3)
      && (stepNo <= maxSteps ==> Shows(cfg, memory, scope, run.records))
      && NeverBack(run.stages) && (forall s | s in run.stages :: Rank(s) <= |Progress(run.records)|)
    }

    /**
      What a careful run guarantees: the stage never goes back, every tool succeeds at most once and in order,
      and a final decision is made on all records, after all four tools.
     */
    ghost predicate Orderly(run: Run, input: ExecutionInput) {
      && Progress(run.records) <= TOOLS
      && NeverBack(run.stages)
      && forall f | f in run.finals ::
        && f.history == run.records && Progress(f.history) == TOOLS
        && EvidenceCount(f.input.history) <= 1
        && (run.degraded ==> LastCampaign(f.input.history) == Some(FallbackCampaign(input.activityId)))
    }

    /** A final decision as the finalizer got it and left it. */
    ghost predicate Accounted(f: Final, input: ExecutionInput) {
      && f.input.history == Findings(codec, f.history)
      && f.input.activityId == input.activityId && f.input.policyVersion == input.policyVersion
      && f.input.sessionId == Trim(input.sessionId) && f.input.executionId == Trim(input.executionId)
      && if finalizing
         then F.Finalized(finalizer.storing, finalizer.locking, finalizer.granting, finalizer.suggest, finalizer.sceneOf,
                          f.input, f.decision, f.step, f.trace)
         else f.decision == f.input.decision && f.step == None && f.trace == None
    }

    lemma Begins(memory: map<string, Session>, input: ExecutionInput)
      requires Careful(input) && Complete(input)
      ensures Going(Begun(memory, input), Scope(input), 1, Run([], [], [], [], false, []), input)
    {
      ScopeIsNamed(input.sessionId, input.executionId);
      hide TrimText, SummarizeSteps, MergeSummary, TOOLS, Trim, SessionScope.MemoryKey;
      assert Findings(codec, []) == [];
    }

    lemma StageJoins(memory: map<string, Session>, scope: string, stepNo: nat, run: Run, input: ExecutionInput, stage: Stage)
      requires Careful(input) && Going(memory, scope, stepNo, run, input) && stepNo <= maxSteps
      requires stage == StageOf(ViewInMemory(memory, scope).recentSteps)
      ensures ViewInMemory(memory, scope).recentSteps == run.records
      ensures Going(memory, scope, stepNo, run.(stages := run.stages + [stage]), input)
    {
      KeptFacts(codec, input.activityId, run.records, run.degraded);
      hide Kept, StageOf, Progress;
      StageCounts(run.records);
    }

    lemma ActKeepsGoing(memory: map<string, Session>, scope: string, stepNo: nat, run: Run, input: ExecutionInput, stage: Stage,
                        added: seq<StepRecord>, moved: bool, run': Run)
      requires Careful(input) && Going(memory, scope, stepNo, run, input) && stepNo <= maxSteps
      requires stage == StageOf(run.records) && Moves(stage, added, moved, input)
      requires run'.records == run.records + added && run'.degraded == (run.degraded || moved) && run'.stages == run.stages
      ensures Going(AppendAll(cfg, memory, scope, added), scope, stepNo + 1, run', input)
    {
      MoveKeeps(stage, run.records, run.degraded, added, moved, input);
      KeptFacts(codec, input.activityId, run'.records, run'.degraded);
      hide Kept, StageOf, Progress, Moves, Shows, AppendAll, TOOLS;
      assert |added| <= 1 || (|added| == 4 && Progress(run.records) == []);
      if stepNo + 1 <= maxSteps {
        assert |run.records| + |added| <= stepNo + 3 <= cfg.maxRecentSteps;
        AppendsShow(cfg, memory, scope, run.records, added);
      }
    }

    lemma EndsOrderly(memory: map<string, Session>, scope: string, stepNo: nat, run: Run, input: ExecutionInput)
      requires Going(memory, scope, stepNo, run, input)
      ensures Orderly(run.(finals := []), input)
    {
    }

    lemma FinalIsOrderly(memory: map<string, Session>, scope: string, stepNo: nat, run: Run, input: ExecutionInput, f: Final)
      requires Careful(input) && Going(memory, scope, stepNo, run, input) && stepNo <= maxSteps && f.history == run.records
      requires StageOf(run.records) == DecisionReady && f.input.history == Findings(codec, f.history)
      ensures Orderly(run.(finals := [f]), input)
    {
      KeptFacts(codec, input.activityId, run.records, run.degraded);
      StageCounts(run.records);
      ToolsDiffer();
      assert Progress(run.records) == TOOLS;
    }

    // ---- RunExecution ------------------------------------------------------------------------

    function Scope(input: ExecutionInput): string {
      SessionScope.MemoryKey(Trim(input.sessionId), Trim(input.executionId))
    }

    /** The memory once the execution's fresh record is written. */
    function Begun(memory: map<string, Session>, input: ExecutionInput): map<string, Session> {
      Saved(cfg, memory, Scope(input), Session(Trim(input.sessionId), Trim(input.executionId), Trim(input.task), "", []))
    }

    /** The stage as the memory shows it after some steps. */
    ghost function StageAfter(begun: map<string, Session>, scope: string, moves: seq<seq<StepRecord>>): Stage {
      StageOf(ViewInMemory(AppendAll(cfg, begun, scope, Flat(moves)), scope).recentSteps)
    }

    /** Step k got a reply and did with it what it must. */
    ghost predicate Taken(run: Run, input: ExecutionInput, world: World, k: nat)
      requires k < |run.stages| && k < |run.moves| == |run.results|
    {
      && world.reply(k).Some? && !Accepts(run.stages[k], world.reply(k).value)
      && Follows(k + 1, run.stages[k], world.reply(k).value, input, world, run.moves[k], run.results[k])
    }

    predicate Accepts(stage: Stage, d: Decision) {
      EqualFold(d.kind, "final") && stage == DecisionReady
    }

    ghost predicate Stepwise(run: Run, input: ExecutionInput, world: World, begun: map<string, Session>) {
      && |run.results| == |run.moves| <= |run.stages| <= |run.moves| + 1 && |run.stages| <= maxSteps && run.records == Flat(run.moves)
      && (forall k | 0 <= k < |run.moves| :: Taken(run, input, world, k))
      && (forall k | 0 <= k < |run.stages| :: run.stages[k] == StageAfter(begun, Scope(input), run.moves[..k]))
      && (run.degraded <==> exists k | 0 <= k < |run.results| :: Degrades(run.results[k]))
    }

    predicate Complete(input: ExecutionInput) {
      Trim(input.sessionId) != "" && Trim(input.executionId) != "" && Trim(input.task) != ""
    }

    /** A completed result: the steps so far, the step of the finalizer if there is one, and the answer in words. */
    ghost predicate Tells(result: Result, steps: seq<StepResult>, f: Final)
      requires result.Finished?
    {
      && result.finalAnswer == RenderFinalAnswer(f.decision)
      && |steps| <= |result.steps| && result.steps[..|steps|] == steps
      && match f.step
         case None => result.steps == steps
         case Some(last) =>
           && |result.steps| == |steps| + 1
           && var r := result.steps[|steps|]; r.number == last.number && r.toolName == "store_decision" && r.error == last.error
    }

    /** How the replies of the model and the answers of the tools led to the result. */
    ghost predicate Explained(run: Run, input: ExecutionInput, world: World, before: map<string, Session>, result: Result) {
      var n := |run.moves|;
      && Stepwise(run, input, world, Begun(before, input))
      && (run.finals != [] ==>
            && |run.finals| == 1 && |run.stages| == n + 1 && world.reply(n).Some? && Accepts(run.stages[n], world.reply(n).value)
            && run.finals[0].input.decision == world.reply(n).value)
      && (result.Finished? ==>
            if result.completed then run.finals != [] && Tells(result, Flat(run.results), run.finals[0])
            else run.finals == [] && n == |run.stages| == maxSteps && result.steps == Flat(run.results))
      && (result.Refused? ==>
            || (!Complete(input) && run.stages == [])
            || (run.finals == [] && |run.stages| == n + 1 && world.reply(n) == None)
            || (run.finals != [] && run.finals[0].step.Some? && Trim(run.finals[0].step.value.error) != ""))
    }

    /** The finalizer was asked exactly for the final decision, and ledger and store were touched only through it. */
    ghost predicate Asked(finals: seq<Final>, weather: F.Weather, inputs: seq<F.Input>, inputs': seq<F.Input>,
                          exchanges: seq<Journal.Noted<Grants.Exchange>>, exchanges': seq<Journal.Noted<Grants.Exchange>>,
                          decisions: seq<Journal.Noted<F.Stored>>, decisions': seq<Journal.Noted<F.Stored>>) {
      if finalizing && finals != [] then
        && inputs' == inputs + [finals[0].input]
        && finalizer.Did(finals[0].input, weather, finals[0].trace, exchanges, exchanges', decisions, decisions')
        && finalizer.OnlyClearCalls(finals[0].input, exchanges, exchanges')
      else
        inputs' == inputs && exchanges' == exchanges && decisions' == decisions
    }

    /** An accepted final decision: the finalizer, two records for the audit, and the result. */
    method Conclude(scope: string, stepNo: nat, d: Decision, input: ExecutionInput, weather: F.Weather, steps: seq<StepResult>)
        returns (result: Result, ghost final: Final)
      requires Grants.Sound(finalizer.ledger.coupons) && F.AllBacked(finalizer.store.decisions, finalizer.ledger.coupons)
      modifies this, finalizer`inputs, finalizer.ledger, finalizer.store, finalizer.lock.server
      ensures Grants.Sound(finalizer.ledger.coupons) && F.AllBacked(finalizer.store.decisions, finalizer.ledger.coupons)
      ensures final.history == old(History(scope)) && final.input.decision == d && final.input.history == Findings(codec, final.history)
      ensures Accounted(final, input)
      ensures Asked([final], weather, old(finalizer.inputs), finalizer.inputs, old(finalizer.ledger.exchanges), finalizer.ledger.exchanges,
                    old(finalizer.store.decisions), finalizer.store.decisions)
      ensures result.Finished? && finalizing && finalizer.storing ==> final.trace.Some? && weather.storing == Locks.Arrives
      ensures result.Refused? <==> final.step.Some? && Trim(final.step.value.error) != ""
      ensures result.Finished? ==> result.completed && Tells(result, steps, final)
    {
      hide Grants.Sound, F.AllBacked, F.Finalized, AppendedInMemory, Trim, RenderFinalAnswer;
      hide F.ReviewCouponFinalizer.Did, F.ReviewCouponFinalizer.OnlyClearCalls, F.ReviewCouponFinalizer.Settled;
      hide F.ReviewCouponFinalizer.Locked, F.ReviewCouponFinalizer.Proceeds;
      var fullHistory := History(scope);
      var request := F.Input(Trim(input.sessionId), Trim(input.executionId), d, Findings(codec, fullHistory), input.activityId, input.policyVersion);
      var decision, step: Option<F.Step> := d, None;
      ghost var trace: Option<F.Trace> := None;
      if finalizing {
        decision, step, trace := finalizer.Finalize(request, weather);
        Settles(request, decision, step, trace);
        ArrivesWhenSettled(request, weather, decision, step, trace);
      }
      final := Final(fullHistory, request, decision, step, trace);
      var text: string := *;
      AppendStep(scope, StepRecord(stepNo, "llm", "final_decision", "decision_ready", text, ""));
      var all := steps;
      if step.Some? {
        var sent: string, answer: string := *, *;
        all := all + [StepResult(step.value.number, "store_decision", sent, answer, step.value.error)];
        AppendStep(scope, StepRecord(step.value.number, "store_decision", "store_decision", sent, answer, step.value.error));
        if Trim(step.value.error) != "" {
          return Refused("finalize decision failed: " + step.value.error), final;
        }
      }
      result := Finished(RenderFinalAnswer(decision), all, ViewInMemory(memory, scope).summary, true);
    }

    lemma ArrivesWhenSettled(request: F.Input, weather: F.Weather, decision: Decision, step: Option<F.Step>, trace: Option<F.Trace>)
      requires trace.Some? ==> step.Some? && finalizer.Settled(request, Guarded(finalizer.suggest, request.decision, FactsOf(request.history)),
        F.FullContext(request), weather, decision, step.value.error, trace.value)
      ensures trace.Some? ==> (Trim(step.value.error) == "" <==> weather.storing == Locks.Arrives)
    {
      hide Trim, Guarded, F.Results, F.GateOf, F.StoreRequest, F.DecisionWithCouponGrant, F.FullContext, FactsOf;
    }

    lemma Settles(request: F.Input, decision: Decision, step: Option<F.Step>, trace: Option<F.Trace>)
      requires F.Finalized(finalizer.storing, finalizer.locking, finalizer.granting, finalizer.suggest, finalizer.sceneOf, request, decision, step, trace)
      ensures finalizer.storing && step.Some? && Trim(step.value.error) == "" ==> trace.Some?
      ensures step.Some? <==> finalizer.storing
      ensures trace.Some? ==> step.Some?
    {
      hide Trim, Guarded, F.Results, F.GateOf, F.StoreRequest, F.DecisionWithCouponGrant, F.FullContext;
    }

    method RunExecution(input: ExecutionInput, world: World, weather: F.Weather) returns (result: Result, ghost run: Run)
      requires Grants.Sound(finalizer.ledger.coupons) && F.AllBacked(finalizer.store.decisions, finalizer.ledger.coupons)
      modifies this, finalizer`inputs, finalizer.ledger, finalizer.store, finalizer.lock.server
      ensures Grants.Sound(finalizer.ledger.coupons) && F.AllBacked(finalizer.store.decisions, finalizer.ledger.coupons)
      ensures Careful(input) ==> Orderly(run, input)
      ensures Explained(run, input, world, old(memory), result)
      ensures forall f | f in run.finals :: Accounted(f, input)
      ensures Asked(run.finals, weather, old(finalizer.inputs), finalizer.inputs, old(finalizer.ledger.exchanges), finalizer.ledger.exchanges,
                    old(finalizer.store.decisions), finalizer.store.decisions)
      ensures !Complete(input) ==> result.Refused? && memory == old(memory)
      ensures result.Finished? && result.completed && finalizing && finalizer.storing ==>
        run.finals != [] && run.finals[0].trace.Some? && weather.storing == Locks.Arrives
    {
      hide Grants.Sound, F.AllBacked, Orderly, Accounted, Careful, Stepwise, Trim, Begun, Asked;
      run := Run([], [], [], [], false, []);
      OrderlyAtFirst(run, input);
      StepwiseAtFirst(run, input, world, Begun(memory, input));
      NothingAsked(weather, finalizer.inputs, finalizer.ledger.exchanges, finalizer.store.decisions);
      var sessionId := Trim(input.sessionId);
      if sessionId == "" {
        return Refused("session_id is required"), run;
      }
      var executionId := Trim(input.executionId);
      if executionId == "" {
        return Refused("execution_id is required"), run;
      }
      var task := Trim(input.task);
      if task == "" {
        return Refused("task is required"), run;
      }
      result, run := RunSteps(input, world, weather);
    }

    lemma NothingAsked(weather: F.Weather, inputs: seq<F.Input>, exchanges: seq<Journal.Noted<Grants.Exchange>>, decisions: seq<Journal.Noted<F.Stored>>)
      ensures Asked([], weather, inputs, inputs, exchanges, exchanges, decisions, decisions)
    {
    }

    /** The loop, once the request is known to be complete. */
    method RunSteps(input: ExecutionInput, world: World, weather: F.Weather) returns (result: Result, ghost run: Run)
      requires Grants.Sound(finalizer.ledger.coupons) && F.AllBacked(finalizer.store.decisions, finalizer.ledger.coupons)
      requires Complete(input)
      modifies this, finalizer`inputs, finalizer.ledger, finalizer.store, finalizer.lock.server
      ensures Grants.Sound(finalizer.ledger.coupons) && F.AllBacked(finalizer.store.decisions, finalizer.ledger.coupons)
      ensures Careful(input) ==> Orderly(run, input)
      ensures Explained(run, input, world, old(memory), result)
      ensures forall f | f in run.finals :: Accounted(f, input)
      ensures Asked(run.finals, weather, old(finalizer.inputs), finalizer.inputs, old(finalizer.ledger.exchanges), finalizer.ledger.exchanges,
                    old(finalizer.store.decisions), finalizer.store.decisions)
      ensures result.Finished? && result.completed && finalizing && finalizer.storing ==>
        run.finals != [] && run.finals[0].trace.Some? && weather.storing == Locks.Arrives
    {
      hide Grants.Sound, F.AllBacked, Going, Orderly, Accounted, Careful, Moves, StageOf, AppendAll, Trim, EqualFold, Saved, SessionScope.MemoryKey;
      hide Follows, Stepwise, Flat, Tells, Asked, Scope, StageAfter, Begun, Degrades, ViewInMemory;
      run := Run([], [], [], [], false, []);
      ghost var before, begun := memory, Begun(memory, input);
      StepwiseAtFirst(run, input, world, begun);
      NothingAsked(weather, finalizer.inputs, finalizer.ledger.exchanges, finalizer.store.decisions);
      var scope := SessionScope.MemoryKey(Trim(input.sessionId), Trim(input.executionId));
      memory := Saved(cfg, memory, scope, Session(Trim(input.sessionId), Trim(input.executionId), Trim(input.task), "", []));
      BegunHere(before, input);
      AppendNothing(cfg, begun, scope);
      if Careful(input) { Begins(before, input); }
      var steps: seq<StepResult> := [];
      for stepNo := 1 to maxSteps + 1
        invariant Grants.Sound(finalizer.ledger.coupons) && F.AllBacked(finalizer.store.decisions, finalizer.ledger.coupons)
        invariant Careful(input) ==> Going(memory, scope, stepNo, run, input)
        invariant run.finals == [] && |run.stages| == |run.moves| == stepNo - 1 && steps == Flat(run.results)
        invariant Stepwise(run, input, world, begun) && memory == AppendAll(cfg, begun, scope, Flat(run.moves))
        invariant finalizer.inputs == old(finalizer.inputs)
        invariant finalizer.ledger.exchanges == old(finalizer.ledger.exchanges) && finalizer.store.decisions == old(finalizer.store.decisions)
      {
        var history := History(scope);
        var stage := WorkflowStage(history);
        if Careful(input) { StageJoins(memory, scope, stepNo, run, input, stage); }
        ghost var joined := run.(stages := run.stages + [stage]);
        StageIsStepwise(run, input, world, begun, stage, joined);
        run := joined;
        var reply := world.reply(stepNo - 1);
        if reply.None? {
          if Careful(input) { EndsOrderly(memory, scope, stepNo, run, input); }
          return Refused("no decision"), run;
        }
        if Accepts(stage, reply.value) {
          ghost var final;
          ghost var shown := memory;
          result, final := Conclude(scope, stepNo, reply.value, input, weather, steps);
          if Careful(input) { FinalIsOrderly(shown, scope, stepNo, run, input, final); }
          StepwiseFinal(run, input, world, begun, [final]);
          run := run.(finals := [final]);
          return;
        }
        ghost var shown := memory;
        var more, added := Act(scope, stepNo, stage, reply.value, input, world);
        ghost var next := run.(records := run.records + added, moves := run.moves + [added], results := run.results + [more],
                               degraded := run.degraded || Degrades(more));
        if Careful(input) { ActKeepsGoing(shown, scope, stepNo, run, input, stage, added, Degrades(more), next); }
        StepIsStepwise(run, input, world, begun, added, more, next);
        FlatFurther(run.results, more);
        FlatFurther(run.moves, added);
        AppendsJoin(cfg, begun, scope, Flat(run.moves), added);
        steps := steps + more;
        run := next;
      }
      if Careful(input) { EndsOrderly(memory, scope, maxSteps + 1, run, input); }
      result := Finished("达到最大迭代次数，未收敛到最终答案", steps, ViewInMemory(memory, scope).summary, false);
    }

    lemma BegunHere(memory: map<string, Session>, input: ExecutionInput)
      ensures Scope(input) == SessionScope.MemoryKey(Trim(input.sessionId), Trim(input.executionId))
      ensures Begun(memory, input) == Saved(cfg, memory, Scope(input), Session(Trim(input.sessionId), Trim(input.executionId), Trim(input.task), "", []))
    {
    }

    lemma StepwiseAtFirst(run: Run, input: ExecutionInput, world: World, begun: map<string, Session>)
      requires run == Run([], [], [], [], false, [])
      ensures Stepwise(run, input, world, begun) && Flat(run.results) == [] && Flat(run.moves) == []
    {
    }

    lemma StageIsStepwise(run: Run, input: ExecutionInput, world: World, begun: map<string, Session>, stage: Stage, run': Run)
      requires Stepwise(run, input, world, begun) && |run.stages| == |run.moves| < maxSteps && run' == run.(stages := run.stages + [stage])
      requires stage == StageOf(ViewInMemory(AppendAll(cfg, begun, Scope(input), Flat(run.moves)), Scope(input)).recentSteps)
      ensures Stepwise(run', input, world, begun)
    {
      hide Follows, StageOf, ViewInMemory, AppendAll, Flat, Scope, Degrades;
      forall k | 0 <= k < |run'.moves|
        ensures Taken(run', input, world, k)
      {
        assert Taken(run, input, world, k);
      }
      assert run.moves[..|run.moves|] == run.moves;
    }

    lemma FlatFurther<T>(parts: seq<seq<T>>, more: seq<T>)
      ensures Flat(parts + [more]) == Flat(parts) + more
    {
      assert (parts + [more])[..|parts|] == parts;
    }

    lemma StepwiseFinal(run: Run, input: ExecutionInput, world: World, begun: map<string, Session>, finals: seq<Final>)
      requires Stepwise(run, input, world, begun)
      ensures Stepwise(run.(finals := finals), input, world, begun)
    {
      hide Follows, StageAfter, Flat, Scope, Degrades;
      var run' := run.(finals := finals);
      forall k | 0 <= k < |run'.moves|
        ensures Taken(run', input, world, k)
      {
        assert Taken(run, input, world, k);
      }
    }

    lemma StepIsStepwise(run: Run, input: ExecutionInput, world: World, begun: map<string, Session>, added: seq<StepRecord>, steps: seq<StepResult>, run': Run)
      requires Stepwise(run, input, world, begun) && |run.stages| == |run.moves| + 1
      requires world.reply(|run.moves|).Some? && !Accepts(run.stages[|run.moves|], world.reply(|run.moves|).value)
      requires Follows(|run.moves| + 1, run.stages[|run.moves|], world.reply(|run.moves|).value, input, world, added, steps)
      requires run'.records == run.records + added && run'.moves == run.moves + [added] && run'.results == run.results + [steps]
      requires run'.stages == run.stages && run'.degraded == (run.degraded || Degrades(steps))
      ensures Stepwise(run', input, world, begun)
    {
      hide Follows, StageAfter, Flat, Scope, Degrades, Accepts;
      FlatFurther(run.moves, added);
      forall k | 0 <= k < |run'.moves|
        ensures Taken(run', input, world, k)
      {
        if k < |run.moves| { assert Taken(run, input, world, k); }
      }
      forall k | 0 <= k < |run'.stages|
        ensures run'.stages[k] == StageAfter(begun, Scope(input), run'.moves[..k])
      {
        assert run'.moves[..k] == run.moves[..k];
      }
      DegradedFurther(run.results, steps, run.degraded);
    }

    lemma DegradedFurther(results: seq<seq<StepResult>>, steps: seq<StepResult>, degraded: bool)
      requires degraded <==> exists k | 0 <= k < |results| :: Degrades(results[k])
      ensures degraded || Degrades(steps) <==> exists k | 0 <= k < |results + [steps]| :: Degrades((results + [steps])[k])
    {
      hide Degrades;
      var all := results + [steps];
      assert all[|results|] == steps;
      if degraded {
        var k :| 0 <= k < |results| && Degrades(results[k]);
        assert Degrades(all[k]);
      }
    }

    lemma OrderlyAtFirst(run: Run, input: ExecutionInput)
      requires run == Run([], [], [], [], false, [])
      ensures Orderly(run, input)
    {
    }

    lemma ScopeIsNamed(sessionId: string, executionId: string)
      requires Trim(sessionId) != ""
      ensures SessionScope.MemoryKey(Trim(sessionId), Trim(executionId)) != ""
    {
      TrimFacts(sessionId);
      TrimFacts(Trim(sessionId));
      hide Trim;
    }
  }

  /** renderFinalAnswer */
  function RenderFinalAnswer(d: Decision): string {
    if Trim(d.finalAnswer) != "" then d.finalAnswer else
    var parts := Worth([d.action, d.scene, d.riskLevel, d.couponSuggestion, d.reason, d.reasoning]);
    if parts == [] then "LLM已完成决策，但未输出final_answer" else Join(parts, "；")
  }

  function Worth(parts: seq<string>): seq<string> {
    if parts == [] then [] else (if Trim(parts[0]) == "" then [] else [parts[0]]) + Worth(parts[1..])
  }

  lemma {:induction false} WorthIsNotBlank(parts: seq<string>, p: string)
    ensures p in Worth(parts) <==> p in parts && Trim(p) != ""
  {
    hide Trim;
    if parts != [] {
      WorthIsNotBlank(parts[1..], p);
      assert parts == [parts[0]] + parts[1..];
    }
  }

  lemma {:induction false} JoinContains(parts: seq<string>, separator: string, p: string)
    requires p in parts
    ensures Contains(Join(parts, separator), p)
  {
    if p == parts[0] {
      var rest := if |parts| == 1 then "" else separator + Join(parts[1..], separator);
      assert Join(parts, separator) == "" + p + rest;
      PartOf("", p, rest);
    } else {
      assert parts == [parts[0]] + parts[1..];
      JoinContains(parts[1..], separator, p);
      PartAfter(parts[0] + separator, Join(parts[1..], separator), p);
      assert Join(parts, separator) == parts[0] + separator + Join(parts[1..], separator);
    }
  }

  /** The answer is the model's own words, or else names everything the decision says. */
  lemma AnswerTells(d: Decision)
    ensures Trim(d.finalAnswer) != "" ==> RenderFinalAnswer(d) == d.finalAnswer
    ensures Trim(d.finalAnswer) == "" ==>
      forall p | p in [d.action, d.scene, d.riskLevel, d.couponSuggestion, d.reason, d.reasoning] && Trim(p) != "" :: Contains(RenderFinalAnswer(d), p)
  {
    var all := [d.action, d.scene, d.riskLevel, d.couponSuggestion, d.reason, d.reasoning];
    hide Trim, Contains, Join, Worth;
    if Trim(d.finalAnswer) == "" {
      forall p | p in all && Trim(p) != ""
        ensures Contains(RenderFinalAnswer(d), p)
      {
        WorthIsNotBlank(all, p);
        JoinContains(Worth(all), "；", p);
      }
    }
  }

  lemma FannedOutKeeps(codec: Codec, activityId: string, records: seq<StepRecord>, fan: seq<StepRecord>)
    requires Kept(codec, activityId, records, false) && Progress(records) == [TOOLS[0]] && FannedOut(fan)
    ensures Kept(codec, activityId, records + fan, false) && Progress(records + fan) == TOOLS
  {
    hide Kept, Succeeded, Trim, Progress;
    var one := records + [fan[0]];
    var two := one + [fan[1]];
    KeptByNext(codec, activityId, records, fan[0]);
    KeptByNext(codec, activityId, one, fan[1]);
    KeptByNext(codec, activityId, two, fan[2]);
    assert two + [fan[2]] == records + fan;
    assert [TOOLS[0]] + [TOOLS[1]] + [TOOLS[2]] + [TOOLS[3]] == TOOLS;
  }

  lemma MirrorsJoin(steps: seq<StepResult>, added: seq<StepRecord>, more: seq<StepResult>, results: seq<StepRecord>)
    requires Mirrors(steps, added) && Mirrors(more, results)
    ensures Mirrors(steps + more, added + results)
  {
  }

  lemma MirrorsFurther(steps: seq<StepResult>, added: seq<StepRecord>, step: StepResult, r: StepRecord)
    requires Mirrors(steps, added) && step.number == r.step && step.toolName == r.toolName && step.arguments == r.arguments
    requires step.observation == r.output && r.error == ""
    ensures Mirrors(steps + [step], added + [r])
  {
  }

  ghost predicate FansOut(added: seq<StepRecord>) {
    |added| <= 3 && forall i | 0 <= i < |added| :: Succeeded(added[i]) && added[i].toolName == TOOLS[i + 1]
  }

  lemma FansFurther(added: seq<StepRecord>, r: StepRecord)
    requires FansOut(added) && |added| < 3 && Succeeded(r) && r.toolName == TOOLS[|added| + 1]
    ensures FansOut(added + [r])
  {
    hide TOOLS, Succeeded;
  }

  ghost predicate FannedOut(added: seq<StepRecord>) {
    |added| == 3 && FansOut(added)
  }

  // ---- What follows for decisions ------------------------------------------------------------

  /**
    Whatever the model said and the tools answered: a decision made in an orderly run asks for a coupon only when
    the grant is clear, never when the campaign was replaced by its fallback, and stores the score the guard looked at.
   */
  lemma DecisionsAreSafe(agent: Agent, run: Run, input: ExecutionInput, world: World, begun: map<string, Session>, f: Final)
    requires agent.finalizing && f in run.finals && f.trace.Some?
    ensures agent.Orderly(run, input) && agent.Stepwise(run, input, world, begun) && agent.Accounted(f, input) ==> SafelyDecided(agent, run, f)
  {
    if agent.Orderly(run, input) && agent.Stepwise(run, input, world, begun) && agent.Accounted(f, input) {
      hide QualitySignal, EqualFold, Trim, FactsOf, ContextOf, LastCampaign, Progress, Findings, DefaultIfBlank, EvidenceCount;
      hide F.Results, F.GateOf, F.DecisionWithCouponGrant, F.ReasonWithCouponGrant, Agent.Taken, Agent.StageAfter, Flat;
      var g := agent.finalizer;
      F.StoredStatus(g.storing, g.locking, g.granting, g.suggest, g.sceneOf, f.input, f.decision, f.step, f.trace);
      ScoresAgree(f.input.history);
      UnavailableIsClosed(input.activityId);
    }
  }

  ghost predicate SafelyDecided(agent: Agent, run: Run, f: Final)
    requires f.trace.Some?
  {
    var p, facts := f.trace.value.request, FactsOf(f.input.history);
    && (f.trace.value.calls != [] ==>
          && F.GrantIsClear(agent.finalizer.granting, agent.finalizer.sceneOf, f.input)
          && forall k | 0 <= k < |run.results| :: !Degrades(run.results[k]))
    && p.score == facts.score
    && (p.couponGranted ==> !facts.hasAppeal && !(p.score <= 2 && QualitySignal(facts)))
  }

  /** A campaign tool that is missing or fails in the fan-out always shows in the results. */
  lemma CampaignFailureShows(agent: Agent, stepNo: nat, stage: Stage, d: Decision, input: ExecutionInput, world: World,
                             added: seq<StepRecord>, steps: seq<StepResult>)
    requires agent.Follows(stepNo, stage, d, input, world, added, steps) && |added| == 4
    ensures Degrades(steps) <==> TOOLS[3] !in agent.registry || world.tool(stepNo, TOOLS[3]).Erred?
  {
    agent.FallbackIsShown(stepNo, input, world, steps[1..], added[1..]);
    hide EqualFold, TOOLS, Agent.NamesReview, Agent.Recorded, Agent.Fetched;
    assert steps[1..][2] == steps[3];
  }

  lemma UnavailableIsClosed(activityId: string)
    ensures !Open(FallbackCampaign(activityId))
  {
  }

  lemma {:induction false} AppendAllIsAppends(cfg: Config, memory: map<string, Session>, scope: string, added: seq<StepRecord>)
    requires scope != "" && scope in memory && memory[scope].sessionId != ""
    ensures var m := AppendAll(cfg, memory, scope, added);
      scope in m && m[scope] == Appends(cfg, memory[scope], added) && m[scope].sessionId != ""
  {
    hide SummarizeSteps, MergeSummary, TrimText;
    if added != [] { AppendAllIsAppends(cfg, memory, scope, added[..|added| - 1]); }
  }

  /** With room for one record less than the steps and the fan-out can make, the first one is forgotten. */
  lemma LessRoomForgets(cfg: Config, maxSteps: nat, memory: map<string, Session>, scope: string, records: seq<StepRecord>)
    requires Normalised(cfg) && cfg.maxRecentSteps == maxSteps + 1 && |records| == maxSteps + 2 >= 4
    requires scope != "" && scope in memory && memory[scope].sessionId != "" && memory[scope].recentSteps == [] && memory[scope].summary == ""
    requires Succeeded(records[0]) && records[0].toolName == TOOLS[0] && FannedOut(records[1..4])
    requires forall i | 4 <= i < |records| :: Idle(records[i])
    ensures StageOf(records) == DecisionReady
    ensures StageOf(ViewInMemory(AppendAll(cfg, memory, scope, records), scope).recentSteps) == CollectReviewEvidence
  {
    hide *;
    AppendAllIsAppends(cfg, memory, scope, records);
    AppendsRemember(cfg, memory[scope], records);
    Shown(AppendAll(cfg, memory, scope, records), scope);
    AfterFanOut(records);
  }

  lemma Shown(memory: map<string, Session>, scope: string)
    requires scope != "" && scope in memory
    ensures ViewInMemory(memory, scope) == memory[scope]
  {
  }

  lemma AfterFanOut(records: seq<StepRecord>)
    requires |records| >= 4 && Succeeded(records[0]) && records[0].toolName == TOOLS[0] && FannedOut(records[1..4])
    requires forall i | 4 <= i < |records| :: Idle(records[i])
    ensures StageOf(records) == DecisionReady && StageOf(records[1..]) == CollectReviewEvidence
  {
    hide Trim, Succeeded;
    var left := records[1..];
    assert forall i | 1 <= i < 4 :: records[i] == records[1..4][i - 1];
    forall r | r in left
      ensures !(Succeeded(r) && r.toolName == TOOLS[0])
    {
      var i :| 0 <= i < |left| && left[i] == r;
      ToolsDiffer();
      assert r == records[i + 1];
    }
    assert records[0] in records && records[1] in records && records[2] in records && records[3] in records;
  }

  /** The model asks for evidence first and talks nonsense ever after; the tools are there and the evidence names its review. */
  ghost predicate Rambles(agent: Agent, world: World) {
    && world.reply(0).Some? && EqualFold(world.reply(0).value.kind, "tool_call") && world.reply(0).value.toolName == TOOLS[0]
    && TOOLS[0] in agent.registry && world.tool(1, TOOLS[0]).Observed? && agent.NamesReview(world.tool(1, TOOLS[0]).observation)
    && forall k | 1 <= k < agent.maxSteps ::
      world.reply(k).Some? && !EqualFold(world.reply(k).value.kind, "tool_call") && !EqualFold(world.reply(k).value.kind, "final")
  }

  /**
    The room is needed: with place for one record less, every such execution has gathered everything after its
    first step and finds itself back at the first stage in its last.
   */
  lemma RunForgets(agent: Agent, run: Run, input: ExecutionInput, world: World, before: map<string, Session>, result: Result)
    requires Normalised(agent.cfg) && agent.cfg.maxRecentSteps == agent.maxSteps + 1 && agent.maxSteps >= 2
    requires agent.Complete(input) && Rambles(agent, world) && agent.Explained(run, input, world, before, result)
    ensures |run.stages| == agent.maxSteps && run.stages[agent.maxSteps - 1] == CollectReviewEvidence
    ensures StageOf(Flat(run.moves[..agent.maxSteps - 1])) == DecisionReady
  {
    var n := agent.maxSteps;
    NeverFinal(agent, run, input, world, before, result);
    hide *;
    assert n >= 2;
    BegunIsFresh(agent, before, input);
    var begun, scope := agent.Begun(before, input), agent.Scope(input);
    FirstStage(agent, run, input, world, begun);
    FirstMove(agent, run, input, world, begun);
    MovesShape(agent, run, input, world, begun, n - 1);
    ShapeFacts(Flat(run.moves[..n - 1]), run.moves[0], n + 2);
    StageIsAfter(agent, run, input, world, begun, n - 1);
    LessRoomForgets(agent.cfg, n, begun, scope, Flat(run.moves[..n - 1]));
  }

  lemma NeverFinal(agent: Agent, run: Run, input: ExecutionInput, world: World, before: map<string, Session>, result: Result)
    requires agent.maxSteps >= 2 && agent.Complete(input) && Rambles(agent, world) && agent.Explained(run, input, world, before, result)
    ensures agent.Stepwise(run, input, world, agent.Begun(before, input)) && |run.moves| == |run.stages| == agent.maxSteps
  {
    hide EqualFold, Agent.NamesReview, Agent.Begun, Trim, TOOLS, Flat, Agent.Taken, Agent.StageAfter, Degrades, Agent.Tells;
    OneKind(world.reply(0).value.kind);
    assert forall k | 0 <= k < agent.maxSteps :: world.reply(k).Some? && !EqualFold(world.reply(k).value.kind, "final");
  }

  lemma OneKind(kind: string)
    requires EqualFold(kind, "tool_call")
    ensures !EqualFold(kind, "final")
  {
    assert |ToLower(kind)| == |ToLower("tool_call")| == 9 && |ToLower("final")| == 5;
  }

  lemma BegunIsFresh(agent: Agent, before: map<string, Session>, input: ExecutionInput)
    requires agent.Complete(input) && Normalised(agent.cfg)
    ensures var m, scope := agent.Begun(before, input), agent.Scope(input);
      scope != "" && scope in m && m[scope].sessionId != "" && m[scope].recentSteps == [] && m[scope].summary == ""
  {
    agent.ScopeIsNamed(input.sessionId, input.executionId);
    hide Trim, SummarizeSteps, MergeSummary, SessionScope.MemoryKey;
  }

  lemma StageIsAfter(agent: Agent, run: Run, input: ExecutionInput, world: World, begun: map<string, Session>, k: nat)
    requires agent.Stepwise(run, input, world, begun) && k < |run.stages|
    ensures k <= |run.moves|
    ensures run.stages[k] == StageOf(ViewInMemory(AppendAll(agent.cfg, begun, agent.Scope(input), Flat(run.moves[..k])), agent.Scope(input)).recentSteps)
  {
    hide Agent.Taken, StageOf, ViewInMemory, AppendAll, Flat, Agent.Scope, Degrades;
  }

  lemma FirstStage(agent: Agent, run: Run, input: ExecutionInput, world: World, begun: map<string, Session>)
    requires agent.Stepwise(run, input, world, begun) && |run.stages| >= 1
    requires var scope := agent.Scope(input); scope != "" && scope in begun && begun[scope].recentSteps == []
    ensures run.stages[0] == CollectReviewEvidence
  {
    StageIsAfter(agent, run, input, world, begun, 0);
    hide Agent.Stepwise, Agent.Scope;
    assert run.moves[..0] == [];
  }

  lemma MoveFollows(agent: Agent, run: Run, input: ExecutionInput, world: World, begun: map<string, Session>, k: nat)
    requires agent.Stepwise(run, input, world, begun) && k < |run.moves|
    ensures |run.results| == |run.moves| <= |run.stages| && world.reply(k).Some?
    ensures agent.Follows(k + 1, run.stages[k], world.reply(k).value, input, world, run.moves[k], run.results[k])
  {
    hide Agent.Follows, Agent.StageAfter, Flat, Degrades, Agent.Accepts;
    assert agent.Taken(run, input, world, k);
  }

  /** Evidence and everything after it. */
  lemma FirstMove(agent: Agent, run: Run, input: ExecutionInput, world: World, begun: map<string, Session>)
    requires agent.Stepwise(run, input, world, begun) && |run.moves| >= 1 && run.stages[0] == CollectReviewEvidence && Rambles(agent, world)
    ensures var m := run.moves[0]; |m| == 4 && Succeeded(m[0]) && m[0].toolName == TOOLS[0] && FannedOut(m[1..4])
  {
    MoveFollows(agent, run, input, world, begun, 0);
    hide Agent.Stepwise;
    var d, m, r := world.reply(0).value, run.moves[0], run.results[0];
    SameNameAllowed();
    agent.BlankIsBlank();
    hide EqualFold, Agent.NamesReview, TOOLS, Trim;
    assert m[1..4] == m[1..];
    agent.FallbackIsShown(1, input, world, r[1..], m[1..]);
  }

  lemma SameNameAllowed()
    ensures ToolAllowed(CollectReviewEvidence, TOOLS[0]) && EqualFold(TOOLS[0], TOOLS[0])
  {
    ToolsDiffer();
  }

  lemma LaterMove(agent: Agent, run: Run, input: ExecutionInput, world: World, begun: map<string, Session>, k: nat)
    requires agent.Stepwise(run, input, world, begun) && 1 <= k < |run.moves| && k < agent.maxSteps && Rambles(agent, world)
    ensures |run.moves[k]| == 1 && Idle(run.moves[k][0])
  {
    MoveFollows(agent, run, input, world, begun, k);
    hide Agent.Stepwise, EqualFold, ToolAllowed, TOOLS, Trim, Agent.Recorded, Agent.Fetched;
    assert |"correction"| == 10 && |"tool_call"| == 9;
  }

  /** The fan-out's four records, then nothing but corrections. */
  ghost predicate Shape(all: seq<StepRecord>, first: seq<StepRecord>, n: nat) {
    && |all| == n >= 4 && all[..4] == first
    && Succeeded(all[0]) && all[0].toolName == TOOLS[0] && FannedOut(all[1..4])
    && forall i | 4 <= i < n :: Idle(all[i])
  }

  lemma ShapeGrows(all: seq<StepRecord>, first: seq<StepRecord>, n: nat, r: StepRecord)
    requires Shape(all, first, n) && Idle(r)
    ensures Shape(all + [r], first, n + 1)
  {
    hide Succeeded, FannedOut, Idle, TOOLS;
    assert (all + [r])[..4] == all[..4] && (all + [r])[1..4] == all[1..4];
  }

  lemma ShapeFacts(all: seq<StepRecord>, first: seq<StepRecord>, n: nat)
    requires Shape(all, first, n)
    ensures |all| == n >= 4 && all[..4] == first
    ensures Succeeded(all[0]) && all[0].toolName == TOOLS[0] && FannedOut(all[1..4])
    ensures forall i | 4 <= i < n :: Idle(all[i])
  {
    hide Succeeded, FannedOut, Idle, TOOLS;
  }

  lemma ShapeStarts(first: seq<StepRecord>)
    requires |first| == 4 && Succeeded(first[0]) && first[0].toolName == TOOLS[0] && FannedOut(first[1..4])
    ensures Shape(first, first, 4)
  {
    hide Succeeded, FannedOut, Idle, TOOLS;
    assert first[..4] == first;
  }

  /** One correction a step. */
  lemma {:induction false} MovesShape(agent: Agent, run: Run, input: ExecutionInput, world: World, begun: map<string, Session>, k: nat)
    requires agent.Stepwise(run, input, world, begun) && 1 <= k <= |run.moves| <= agent.maxSteps && Rambles(agent, world)
    requires var m := run.moves[0]; |m| == 4 && Succeeded(m[0]) && m[0].toolName == TOOLS[0] && FannedOut(m[1..4])
    ensures Shape(Flat(run.moves[..k]), run.moves[0], k + 3)
    decreases k
  {
    hide Agent.Stepwise, Rambles, Succeeded, FannedOut, Idle, TOOLS, Agent.Follows, Shape, Flat;
    if k == 1 {
      ShapeStarts(run.moves[0]);
      assert run.moves[..1] == [] + [run.moves[0]];
      agent.FlatFurther([], run.moves[0]);
      FlatOfNone();
      assert Flat<StepRecord>([]) + run.moves[0] == run.moves[0];
    } else {
      MovesShape(agent, run, input, world, begun, k - 1);
      LaterMove(agent, run, input, world, begun, k - 1);
      ShapeGrows(Flat(run.moves[..k - 1]), run.moves[0], k + 2, run.moves[k - 1][0]);
      assert run.moves[..k] == run.moves[..k - 1] + [run.moves[k - 1]];
      assert run.moves[k - 1] == [run.moves[k - 1][0]];
      agent.FlatFurther(run.moves[..k - 1], run.moves[k - 1]);
    }
  }

  lemma FlatOfNone()
    ensures Flat<StepRecord>([]) == []
  {
  }
}
