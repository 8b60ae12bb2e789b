/** The facts in a tool history, and the guard that overrules a model's decision by them. */
module Guard {
  import opened Options
  import opened Text

  /** A model's reply, and what becomes of it. */
  datatype Decision = Decision(
    kind: string, toolName: string, arguments: string, finalAnswer: string, action: string, scene: string, riskLevel: string,
    reason: string, reasoning: string, confidence: real, couponSuggestion: string, policyTags: seq<string>, needHumanReview: bool)

  /** The review as the evidence tool reports it; both spellings of a field are already merged, numbers are 64 bits wide. */
  datatype Evidence = Evidence(
    reviewId: int, storeId: int, userId: int, orderId: int, skuId: int, spuId: int, score: int, content: string,
    hasMedia: bool, isFirstReview: bool, hasAppeal: bool, evidenceVersion: int)

  datatype Chunk = Chunk(chunkId: string, aspect: string)

  datatype Campaign = Campaign(
    activityId: string, policyVersion: string, couponTemplateId: string, status: string, productEligible: bool, userEligible: bool,
    remainingStock: int, remainingBudgetCent: int, userGrantLimit: int, userGrantedCount: int)

  /** A record's output after decoding: blank or malformed text carries nothing, an object the parts it has. */
  datatype Output = Unusable | Object(evidence: Option<Evidence>, chunks: seq<Chunk>, campaign: Option<Campaign>)

  datatype Finding = Finding(toolName: string, output: Output)

  /** int32(v) of a 64-bit value keeps the low 32 bits. */
  function Int32(v: int): (n: int)
    ensures -0x8000_0000 <= n < 0x8000_0000 && (v - n) % 0x1_0000_0000 == 0
    ensures -0x8000_0000 <= v < 0x8000_0000 ==> n == v
  {
    (v + 0x8000_0000) % 0x1_0000_0000 - 0x8000_0000
  }

  // ---- Facts ---------------------------------------------------------------------------------

  datatype Facts = Facts(score: int, hasAppeal: bool, content: string, aspects: seq<string>)

  function EvidenceIn(f: Finding): Option<Evidence> {
    if f.toolName == "get_review_evidence" && f.output.Object? then f.output.evidence else None
  }

  function ChunksIn(f: Finding): seq<Chunk> {
    if f.toolName == "retrieve_rag" && f.output.Object? then f.output.chunks else []
  }

  function AspectsOf(chunks: seq<Chunk>): seq<string> {
    if chunks == [] then [] else (if chunks[0].aspect == "" then [] else [chunks[0].aspect]) + AspectsOf(chunks[1..])
  }

  function Absorb(facts: Facts, f: Finding): Facts {
    match EvidenceIn(f)
    case None => facts.(aspects := facts.aspects + AspectsOf(ChunksIn(f)))
    case Some(e) =>
      facts.(score := if facts.score == 0 then Int32(e.score) else facts.score,
             hasAppeal := facts.hasAppeal || e.hasAppeal,
             content := if facts.content == "" then e.content else facts.content)
  }

  function FactsOf(history: seq<Finding>): Facts {
    if history == [] then Facts(0, false, "", []) else Absorb(FactsOf(history[..|history| - 1]), history[|history| - 1])
  }

  method CollectAspects(chunks: seq<Chunk>) returns (aspects: seq<string>)
    ensures aspects == AspectsOf(chunks)
  {
    aspects := [];
    for i := 0 to |chunks|
      invariant aspects + AspectsOf(chunks[i..]) == AspectsOf(chunks)
    {
      assert chunks[i..][1..] == chunks[i + 1..];
      if chunks[i].aspect != "" {
        aspects := aspects + [chunks[i].aspect];
      }
    }
  }

  method ExtractDecisionFacts(history: seq<Finding>) returns (facts: Facts)
    ensures facts == FactsOf(history) && FactsTell(history, facts)
  {
    FactsAreTold(history);
    hide FactsTell;
    facts := Facts(0, false, "", []);
    for i := 0 to |history|
      invariant facts == FactsOf(history[..i])
    {
      assert history[..i + 1][..i] == history[..i];
      var item := history[i];
      if item.output.Object? {
        if item.toolName == "get_review_evidence" {
          if item.output.evidence.Some? {
            var evidence := item.output.evidence.value;
            if facts.score == 0 {
              facts := facts.(score := Int32(evidence.score));
            }
            facts := facts.(hasAppeal := facts.hasAppeal || evidence.hasAppeal);
            if facts.content == "" {
              facts := facts.(content := evidence.content);
            }
          }
        } else if item.toolName == "retrieve_rag" {
          var aspects := CollectAspects(item.output.chunks);
          facts := facts.(aspects := facts.aspects + aspects);
        }
      }
    }
    assert history[..|history|] == history;
  }

  // ---- What the facts say about the history --------------------------------------------------

  /** A usable answer of the evidence tool. */
  predicate IsEvidence(f: Finding) {
    f.toolName == "get_review_evidence" && f.output.Object? && f.output.evidence.Some?
  }

  /** A usable answer of the retrieval tool. */
  predicate IsRetrieval(f: Finding) {
    f.toolName == "retrieve_rag" && f.output.Object?
  }

  ghost predicate Appealed(history: seq<Finding>) {
    exists i :: 0 <= i < |history| && IsEvidence(history[i]) && history[i].output.evidence.value.hasAppeal
  }

  /** Some chunk that was retrieved is about this aspect. */
  ghost predicate AspectFound(history: seq<Finding>, aspect: string) {
    && aspect != ""
    && exists i, k :: 0 <= i < |history| && IsRetrieval(history[i]) && 0 <= k < |history[i].output.chunks|
                      && history[i].output.chunks[k].aspect == aspect
  }

  /** The score of the first report that has one, as a 32-bit number. */
  ghost predicate ScoreGiven(history: seq<Finding>, score: int) {
    || (score == 0 && forall i | 0 <= i < |history| && IsEvidence(history[i]) :: Int32(history[i].output.evidence.value.score) == 0)
    || exists i :: 0 <= i < |history| && IsEvidence(history[i]) && Int32(history[i].output.evidence.value.score) == score != 0
         && forall j | 0 <= j < i && IsEvidence(history[j]) :: Int32(history[j].output.evidence.value.score) == 0
  }

  /** The text of the first report that has one. */
  ghost predicate ContentGiven(history: seq<Finding>, content: string) {
    || (content == "" && forall i | 0 <= i < |history| && IsEvidence(history[i]) :: history[i].output.evidence.value.content == "")
    || exists i :: 0 <= i < |history| && IsEvidence(history[i]) && history[i].output.evidence.value.content == content != ""
         && forall j | 0 <= j < i && IsEvidence(history[j]) :: history[j].output.evidence.value.content == ""
  }

  ghost predicate FactsTell(history: seq<Finding>, facts: Facts) {
    && (facts.hasAppeal <==> Appealed(history))
    && (forall a :: a in facts.aspects <==> AspectFound(history, a))
    && ScoreGiven(history, facts.score) && ContentGiven(history, facts.content)
  }

  lemma {:induction false} AspectsListed(chunks: seq<Chunk>, a: string)
    ensures a in AspectsOf(chunks) <==> a != "" && exists k :: 0 <= k < |chunks| && chunks[k].aspect == a
  {
    if chunks != [] {
      AspectsListed(chunks[1..], a);
      if k :| 0 <= k < |chunks[1..]| && chunks[1..][k].aspect == a { assert chunks[k + 1].aspect == a; }
      if k :| 0 < k < |chunks| && chunks[k].aspect == a { assert chunks[1..][k - 1].aspect == a; }
    }
  }

  lemma AppealFurther(before: seq<Finding>, f: Finding)
    ensures Appealed(before + [f]) <==> Appealed(before) || (IsEvidence(f) && f.output.evidence.value.hasAppeal)
  {
    var all := before + [f];
    assert all[|before|] == f && forall i | 0 <= i < |before| :: all[i] == before[i];
    if i :| 0 <= i < |before| && IsEvidence(before[i]) && before[i].output.evidence.value.hasAppeal { assert IsEvidence(all[i]); }
  }

  lemma AspectFurther(before: seq<Finding>, f: Finding, a: string)
    ensures AspectFound(before + [f], a) <==> AspectFound(before, a) || (IsRetrieval(f) && a in AspectsOf(f.output.chunks))
  {
    var all := before + [f];
    assert all[|before|] == f && forall i | 0 <= i < |before| :: all[i] == before[i];
    if f.output.Object? { AspectsListed(f.output.chunks, a); }
    if AspectFound(before, a) {
      var i, k :| 0 <= i < |before| && IsRetrieval(before[i]) && 0 <= k < |before[i].output.chunks| && before[i].output.chunks[k].aspect == a;
      assert IsRetrieval(all[i]) && all[i].output.chunks[k].aspect == a;
    }
    if IsRetrieval(f) && a != "" {
      if k :| 0 <= k < |f.output.chunks| && f.output.chunks[k].aspect == a {
        assert IsRetrieval(all[|before|]) && all[|before|].output.chunks[k].aspect == a;
      }
    }
  }

  lemma ScoreFurther(before: seq<Finding>, f: Finding, score: int)
    requires ScoreGiven(before, score)
    ensures ScoreGiven(before + [f], if score == 0 && IsEvidence(f) then Int32(f.output.evidence.value.score) else score)
  {
    hide Int32;
    var all := before + [f];
    assert all[|before|] == f && forall i | 0 <= i < |before| :: all[i] == before[i];
    if score != 0 {
      var i :| 0 <= i < |before| && IsEvidence(before[i]) && Int32(before[i].output.evidence.value.score) == score
        && forall j | 0 <= j < i && IsEvidence(before[j]) :: Int32(before[j].output.evidence.value.score) == 0;
      assert IsEvidence(all[i]) && Int32(all[i].output.evidence.value.score) == score;
    }
  }

  lemma ContentFurther(before: seq<Finding>, f: Finding, content: string)
    requires ContentGiven(before, content)
    ensures ContentGiven(before + [f], if content == "" && IsEvidence(f) then f.output.evidence.value.content else content)
  {
    var all := before + [f];
    assert all[|before|] == f && forall i | 0 <= i < |before| :: all[i] == before[i];
    if content != "" {
      var i :| 0 <= i < |before| && IsEvidence(before[i]) && before[i].output.evidence.value.content == content
        && forall j | 0 <= j < i && IsEvidence(before[j]) :: before[j].output.evidence.value.content == "";
      assert IsEvidence(all[i]) && all[i].output.evidence.value.content == content;
    }
  }

  lemma ToolsOfFacts(f: Finding)
    ensures IsEvidence(f) <==> EvidenceIn(f).Some?
    ensures IsEvidence(f) ==> EvidenceIn(f) == f.output.evidence && !IsRetrieval(f)
    ensures ChunksIn(f) == if IsRetrieval(f) then f.output.chunks else []
  {
    assert |"get_review_evidence"| == 19 && |"retrieve_rag"| == 12;
  }

  /** The guard looks at an appeal in any report, every aspect retrieved, and the first score and text reported. */
  lemma {:induction false} FactsAreTold(history: seq<Finding>)
    ensures FactsTell(history, FactsOf(history))
  {
    if history != [] {
      var before, f := history[..|history| - 1], history[|history| - 1];
      assert history == before + [f];
      FactsAreTold(before);
      AbsorbTells(before, f, FactsOf(before));
    }
  }

  lemma AbsorbTells(before: seq<Finding>, f: Finding, facts: Facts)
    requires FactsTell(before, facts)
    ensures FactsTell(before + [f], Absorb(facts, f))
  {
    ToolsOfFacts(f);
    AppealFurther(before, f);
    ScoreFurther(before, f, facts.score);
    ContentFurther(before, f, facts.content);
    assert AspectsOf([]) == [];
    forall a
      ensures a in Absorb(facts, f).aspects <==> AspectFound(before + [f], a)
    {
      AspectFurther(before, f, a);
      hide Appealed, AspectFound, ScoreGiven, ContentGiven, AspectsOf, Int32;
    }
    hide Appealed, AspectFound, ScoreGiven, ContentGiven, AspectsOf, Int32, IsEvidence, IsRetrieval;
  }

  // ---- Quality -------------------------------------------------------------------------------

  const KEYWORDS := ["质量", "破损", "掉色", "异味", "材质", "做工", "瑕疵", "缩水", "quality"]

  ghost predicate QualitySignal(facts: Facts) {
    || (exists k | k in KEYWORDS :: Contains(ToLower(facts.content), k))
    || (exists a | a in facts.aspects :: EqualFold(a, "QUALITY"))
  }

  method HasQualitySignal(facts: Facts) returns (found: bool)
    ensures found <==> QualitySignal(facts)
  {
    var content := ToLower(facts.content);
    for i := 0 to |KEYWORDS|
      invariant forall j | 0 <= j < i :: !Contains(content, KEYWORDS[j])
    {
      if Contains(content, KEYWORDS[i]) {
        return true;
      }
    }
    for i := 0 to |facts.aspects|
      invariant forall j | 0 <= j < i :: !EqualFold(facts.aspects[j], "QUALITY")
    {
      if EqualFold(facts.aspects[i], "QUALITY") {
        return true;
      }
    }
    return false;
  }

  ghost predicate LowQuality(facts: Facts) {
    facts.score <= 2 && QualitySignal(facts)
  }

  ghost predicate Forced(facts: Facts) {
    facts.hasAppeal || LowQuality(facts)
  }

  /** The review is rated two or less, or not at all, and its text or a similar case is about quality. */
  ghost predicate LowRatedQuality(history: seq<Finding>) {
    exists score, content :: ScoreGiven(history, score) && ContentGiven(history, content) && score <= 2
      && ((exists k | k in KEYWORDS :: Contains(ToLower(content), k)) || exists a :: AspectFound(history, a) && EqualFold(a, "QUALITY"))
  }

  lemma ScoreOnce(history: seq<Finding>, a: int, b: int)
    requires ScoreGiven(history, a) && ScoreGiven(history, b)
    ensures a == b
  {
    hide Int32;
  }

  lemma ContentOnce(history: seq<Finding>, a: string, b: string)
    requires ContentGiven(history, a) && ContentGiven(history, b)
    ensures a == b
  {
  }

  /** What forces a review, in terms of the history. */
  lemma ForcedByHistory(history: seq<Finding>)
    ensures FactsOf(history).hasAppeal <==> Appealed(history)
    ensures LowQuality(FactsOf(history)) <==> LowRatedQuality(history)
  {
    FactsAreTold(history);
    var facts := FactsOf(history);
    hide FactsOf, Appealed, AspectFound, ScoreGiven, ContentGiven, Contains, EqualFold, KEYWORDS;
    if LowQuality(facts) {
      assert ScoreGiven(history, facts.score) && ContentGiven(history, facts.content);
    }
    if LowRatedQuality(history) {
      var score, content :| ScoreGiven(history, score) && ContentGiven(history, content) && score <= 2
        && ((exists k | k in KEYWORDS :: Contains(ToLower(content), k)) || exists a :: AspectFound(history, a) && EqualFold(a, "QUALITY"));
      ScoreOnce(history, score, facts.score);
      ContentOnce(history, content, facts.content);
    }
  }

  // ---- The guard -----------------------------------------------------------------------------

  predicate HasTag(tags: seq<string>, tag: string) {
    exists t | t in tags :: EqualFold(t, tag)
  }

  function WithTag(tags: seq<string>, tag: string): seq<string> {
    if HasTag(tags, tag) then tags else tags + [tag]
  }

  const APPEAL_REASON := "当前评价存在申诉/争议，历史相似案例仅作参考，不得自动发券"
  const QUALITY_REASON := "当前评价为低分质量问题，历史补偿案例不能直接复用，需人工复核"

  ghost function GuardReason(facts: Facts): string {
    "DecisionGuard调整：" + Join((if facts.hasAppeal then [APPEAL_REASON] else []) + (if LowQuality(facts) then [QUALITY_REASON] else []), "；")
  }

  /** What stands after the guard, field by field; `suggest` is the policy's text for a scene. */
  ghost function Guarded(suggest: string -> string, d: Decision, facts: Facts): Decision {
    var forced, suggested := Forced(facts), EqualFold(d.action, "SUGGEST_COUPON");
    var action := if forced then "MANUAL_REVIEW" else if suggested then "GRANT_COUPON" else d.action;
    var scene := if LowQuality(facts) then "HIGH_RISK_REVIEW" else if forced then "DISPUTE_REVIEW" else d.scene;
    var tags := if suggested then WithTag(d.policyTags, "SUGGEST_COUPON_NORMALIZED") else d.policyTags;
    d.(action := action,
       scene := scene,
       needHumanReview := d.needHumanReview || EqualFold(action, "MANUAL_REVIEW"),
       couponSuggestion := if EqualFold(action, "GRANT_COUPON") then suggest(scene) else "",
       policyTags := if forced then WithTag(WithTag(tags, "CURRENT_EVIDENCE_PRIORITY"), "DECISION_GUARD") else tags,
       reasoning := if !forced then d.reasoning else if Trim(d.reasoning) == "" then GuardReason(facts) else d.reasoning + " " + GuardReason(facts),
       reason := if forced && Trim(d.reason) == "" then GuardReason(facts) else d.reason)
  }

  method AppendMissingTag(tags: seq<string>, tag: string) returns (r: seq<string>)
    ensures r == WithTag(tags, tag)
  {
    for i := 0 to |tags|
      invariant forall j | 0 <= j < i :: !EqualFold(tags[j], tag)
    {
      if EqualFold(tags[i], tag) {
        return tags;
      }
    }
    return tags + [tag];
  }

  /** What becomes of a decision, by what its history holds. */
  ghost predicate Overruled(suggest: string -> string, d: Decision, history: seq<Finding>, r: Decision) {
    var appeal, quality, suggested := Appealed(history), LowRatedQuality(history), EqualFold(d.action, "SUGGEST_COUPON");
    && r.scene == (if quality then "HIGH_RISK_REVIEW" else if appeal then "DISPUTE_REVIEW" else d.scene)
    && (appeal || quality ==>
          && r.action == "MANUAL_REVIEW" && r.needHumanReview
          && (Trim(d.reasoning) != "" ==> d.reasoning <= r.reasoning) && (Trim(d.reason) != "" ==> r.reason == d.reason)
          && HasTag(r.policyTags, "CURRENT_EVIDENCE_PRIORITY") && HasTag(r.policyTags, "DECISION_GUARD"))
    && (appeal ==> Contains(r.reasoning, APPEAL_REASON)) && (quality ==> Contains(r.reasoning, QUALITY_REASON))
    && (!appeal && !quality ==>
          && r.action == (if suggested then "GRANT_COUPON" else d.action)
          && (r.needHumanReview <==> d.needHumanReview || EqualFold(d.action, "MANUAL_REVIEW"))
          && r.reasoning == d.reasoning && r.reason == d.reason && (!suggested ==> r.policyTags == d.policyTags))
    && (suggested ==> HasTag(r.policyTags, "SUGGEST_COUPON_NORMALIZED"))
    && d.policyTags <= r.policyTags
    && r.couponSuggestion == (if EqualFold(r.action, "GRANT_COUPON") then suggest(r.scene) else "")
    && (r.kind, r.toolName, r.arguments, r.finalAnswer, r.riskLevel, r.confidence)
       == (d.kind, d.toolName, d.arguments, d.finalAnswer, d.riskLevel, d.confidence)
  }

  method ApplyDecisionGuard(suggest: string -> string, input: Decision, history: seq<Finding>) returns (decision: Decision)
    ensures decision == Guarded(suggest, input, FactsOf(history)) && Overruled(suggest, input, history, decision)
  {
    var facts := ExtractDecisionFacts(history);
    GuardOverrules(suggest, input, history);
    hide Overruled, FactsTell, FactsOf, QualitySignal, HasTag, Trim, WithTag, ToLower, EqualFold, Join;
    decision := input;
    var changed, reasons := false, [];
    FoldFacts();
    if EqualFold(decision.action, "SUGGEST_COUPON") {
      var tags := AppendMissingTag(decision.policyTags, "SUGGEST_COUPON_NORMALIZED");
      decision := decision.(action := "GRANT_COUPON", policyTags := tags);
    }
    if facts.hasAppeal {
      var tags := AppendMissingTag(decision.policyTags, "CURRENT_EVIDENCE_PRIORITY");
      decision := decision.(
        action := "MANUAL_REVIEW", scene := "DISPUTE_REVIEW", needHumanReview := true, couponSuggestion := "", policyTags := tags);
      reasons := reasons + [APPEAL_REASON];
      changed := true;
    }
    var quality := HasQualitySignal(facts);
    if facts.score <= 2 && quality {
      var tags := AppendMissingTag(decision.policyTags, "CURRENT_EVIDENCE_PRIORITY");
      WithTagFacts(input.policyTags, "CURRENT_EVIDENCE_PRIORITY");
      WithTagFacts(WithTag(input.policyTags, "SUGGEST_COUPON_NORMALIZED"), "CURRENT_EVIDENCE_PRIORITY");
      decision := decision.(
        action := "MANUAL_REVIEW", scene := "HIGH_RISK_REVIEW", needHumanReview := true, couponSuggestion := "", policyTags := tags);
      reasons := reasons + [QUALITY_REASON];
      changed := true;
    }
    if EqualFold(decision.action, "MANUAL_REVIEW") {
      decision := decision.(needHumanReview := true);
    }
    if !EqualFold(decision.action, "GRANT_COUPON") {
      decision := decision.(couponSuggestion := "");
    } else {
      decision := decision.(couponSuggestion := suggest(decision.scene));
    }
    if changed {
      var guardReason := "DecisionGuard调整：" + Join(reasons, "；");
      assert reasons == (if facts.hasAppeal then [APPEAL_REASON] else []) + (if LowQuality(facts) then [QUALITY_REASON] else []);
      var tags := AppendMissingTag(decision.policyTags, "DECISION_GUARD");
      decision := decision.(policyTags := tags);
      if Trim(decision.reasoning) == "" {
        decision := decision.(reasoning := guardReason);
      } else {
        decision := decision.(reasoning := decision.reasoning + " " + guardReason);
      }
      if Trim(decision.reason) == "" {
        decision := decision.(reason := guardReason);
      }
    }
  }

  // ---- What the guard guarantees -------------------------------------------------------------

  lemma FoldFacts()
    ensures EqualFold("MANUAL_REVIEW", "MANUAL_REVIEW") && EqualFold("GRANT_COUPON", "GRANT_COUPON")
    ensures !EqualFold("MANUAL_REVIEW", "GRANT_COUPON") && !EqualFold("GRANT_COUPON", "MANUAL_REVIEW")
    ensures !EqualFold("MANUAL_REVIEW", "SUGGEST_COUPON") && !EqualFold("GRANT_COUPON", "SUGGEST_COUPON")
  {
    assert |ToLower("MANUAL_REVIEW")| == 13 && |ToLower("GRANT_COUPON")| == 12 && |ToLower("SUGGEST_COUPON")| == 14;
  }

  lemma WithTagFacts(tags: seq<string>, tag: string)
    ensures WithTag(WithTag(tags, tag), tag) == WithTag(tags, tag)
    ensures tags <= WithTag(tags, tag) && HasTag(WithTag(tags, tag), tag)
  {
    assert EqualFold(tag, tag);
    assert tag in tags + [tag];
  }

  lemma TagStays(tags: seq<string>, more: seq<string>, tag: string)
    requires HasTag(tags, tag) && tags <= more
    ensures HasTag(more, tag) && WithTag(more, tag) == more
  {
    var t :| t in tags && EqualFold(t, tag);
    assert t in more;
  }

  /** Nobody is granted a coupon past the guard on an appealed or a low-rated quality review, nor unless the model asked for it. */
  lemma GrantsAreClear(suggest: string -> string, d: Decision, facts: Facts)
    requires var r := Guarded(suggest, d, facts); EqualFold(r.action, "GRANT_COUPON") && !r.needHumanReview
    ensures !facts.hasAppeal && !(facts.score <= 2 && QualitySignal(facts)) && !d.needHumanReview
    ensures EqualFold(d.action, "GRANT_COUPON") || EqualFold(d.action, "SUGGEST_COUPON")
  {
    FoldFacts();
  }

  lemma PartOf(a: string, part: string, b: string)
    ensures Contains(a + part + b, part)
  {
    assert (a + part + b)[|a|..] == part + b;
  }

  lemma PartAfter(a: string, s: string, part: string)
    requires Contains(s, part)
    ensures Contains(a + s, part)
  {
    var i :| 0 <= i <= |s| && part <= s[i..];
    assert (a + s)[|a| + i..] == s[i..];
  }

  /** The guard's reason names each cause. */
  lemma ReasonNamesCauses(facts: Facts)
    ensures facts.hasAppeal ==> Contains(GuardReason(facts), APPEAL_REASON)
    ensures LowQuality(facts) ==> Contains(GuardReason(facts), QUALITY_REASON)
  {
    hide LowQuality, Contains, APPEAL_REASON, QUALITY_REASON;
    var head := "DecisionGuard调整：";
    if facts.hasAppeal && LowQuality(facts) {
      assert [APPEAL_REASON, QUALITY_REASON] == [APPEAL_REASON] + [QUALITY_REASON];
      PartOf(head, APPEAL_REASON, "；" + QUALITY_REASON);
      PartOf(head + APPEAL_REASON + "；", QUALITY_REASON, "");
      assert Join([QUALITY_REASON], "；") == QUALITY_REASON && [APPEAL_REASON, QUALITY_REASON][1..] == [QUALITY_REASON];
      assert GuardReason(facts) == head + (APPEAL_REASON + "；" + QUALITY_REASON);
      assert GuardReason(facts) == head + APPEAL_REASON + ("；" + QUALITY_REASON);
      assert GuardReason(facts) == head + APPEAL_REASON + "；" + QUALITY_REASON + "";
    } else if facts.hasAppeal {
      PartOf(head, APPEAL_REASON, "");
      assert GuardReason(facts) == head + APPEAL_REASON + "";
    } else if LowQuality(facts) {
      PartOf(head, QUALITY_REASON, "");
      assert GuardReason(facts) == head + QUALITY_REASON + "";
    }
  }

  /** The reasoning after the guard still names the causes. */
  lemma ReasoningNamesCauses(suggest: string -> string, d: Decision, facts: Facts)
    requires Forced(facts)
    ensures var r := Guarded(suggest, d, facts).reasoning;
      (facts.hasAppeal ==> Contains(r, APPEAL_REASON)) && (LowQuality(facts) ==> Contains(r, QUALITY_REASON))
    ensures d.reasoning <= Guarded(suggest, d, facts).reasoning || Trim(d.reasoning) == ""
  {
    ReasonNamesCauses(facts);
    hide LowQuality, Contains, APPEAL_REASON, QUALITY_REASON, GuardReason, WithTag, EqualFold, Trim;
    if Trim(d.reasoning) != "" {
      var head := d.reasoning + " ";
      if facts.hasAppeal { PartAfter(head, GuardReason(facts), APPEAL_REASON); }
      if LowQuality(facts) { PartAfter(head, GuardReason(facts), QUALITY_REASON); }
    }
  }

  lemma TagsAfter(d: Decision, forced: bool)
    ensures var suggested := EqualFold(d.action, "SUGGEST_COUPON");
      var tags := if suggested then WithTag(d.policyTags, "SUGGEST_COUPON_NORMALIZED") else d.policyTags;
      var all := if forced then WithTag(WithTag(tags, "CURRENT_EVIDENCE_PRIORITY"), "DECISION_GUARD") else tags;
      && d.policyTags <= all && (suggested ==> HasTag(all, "SUGGEST_COUPON_NORMALIZED"))
      && (forced ==> HasTag(all, "CURRENT_EVIDENCE_PRIORITY") && HasTag(all, "DECISION_GUARD"))
  {
    var suggested := EqualFold(d.action, "SUGGEST_COUPON");
    var tags := if suggested then WithTag(d.policyTags, "SUGGEST_COUPON_NORMALIZED") else d.policyTags;
    var one := WithTag(tags, "CURRENT_EVIDENCE_PRIORITY");
    var two := WithTag(one, "DECISION_GUARD");
    WithTagFacts(d.policyTags, "SUGGEST_COUPON_NORMALIZED");
    WithTagFacts(tags, "CURRENT_EVIDENCE_PRIORITY");
    WithTagFacts(one, "DECISION_GUARD");
    TagStays(one, two, "CURRENT_EVIDENCE_PRIORITY");
    if suggested { TagStays(tags, two, "SUGGEST_COUPON_NORMALIZED"); }
    hide EqualFold, WithTag, HasTag;
  }

  /** The guard overrules by what the history holds, and leaves the rest alone. */
  lemma GuardOverrules(suggest: string -> string, d: Decision, history: seq<Finding>)
    ensures Overruled(suggest, d, history, Guarded(suggest, d, FactsOf(history)))
  {
    var facts := FactsOf(history);
    ForcedByHistory(history);
    FoldFacts();
    TagsAfter(d, Forced(facts));
    if Forced(facts) { ReasoningNamesCauses(suggest, d, facts); }
    hide FactsOf, Appealed, LowRatedQuality, LowQuality, GuardReason, Contains, EqualFold, WithTag, HasTag, Trim, APPEAL_REASON, QUALITY_REASON;
  }

  lemma GuardReasonIsText(facts: Facts)
    ensures Trim(GuardReason(facts)) != ""
  {
    assert GuardReason(facts)[0] == 'D';
    hide GuardReason;
    Worded(GuardReason(facts), 0);
  }

  /** Guarding again changes nothing but the reasoning, and that only when the guard overruled the model. */
  lemma GuardTwice(suggest: string -> string, d: Decision, facts: Facts)
    ensures var r := Guarded(suggest, d, facts); var again := Guarded(suggest, r, facts);
      again == if Forced(facts) then r.(reasoning := again.reasoning) else r
    ensures var r := Guarded(suggest, d, facts);
      Forced(facts) ==> Guarded(suggest, r, facts).reasoning == r.reasoning + " " + GuardReason(facts)
  {
    FoldFacts();
    GuardReasonIsText(facts);
    TagsTwice(d.policyTags);
    TagsTwice(WithTag(d.policyTags, "SUGGEST_COUPON_NORMALIZED"));
    if Forced(facts) && Trim(d.reasoning) != "" {
      KeepsText(d.reasoning, " ");
      KeepsText(d.reasoning + " ", GuardReason(facts));
    }
    hide EqualFold, Forced, GuardReason, WithTag, Trim, LowQuality;
  }

  lemma TagsTwice(tags: seq<string>)
    ensures var r := WithTag(WithTag(tags, "CURRENT_EVIDENCE_PRIORITY"), "DECISION_GUARD");
      WithTag(WithTag(r, "CURRENT_EVIDENCE_PRIORITY"), "DECISION_GUARD") == r
  {
    var one := WithTag(tags, "CURRENT_EVIDENCE_PRIORITY");
    WithTagFacts(tags, "CURRENT_EVIDENCE_PRIORITY");
    WithTagFacts(one, "DECISION_GUARD");
    TagStays(one, WithTag(one, "DECISION_GUARD"), "CURRENT_EVIDENCE_PRIORITY");
  }

  // ---- Longer histories ----------------------------------------------------------------------

  lemma {:induction false} FactsGrow(history: seq<Finding>, more: seq<Finding>)
    ensures var f, g := FactsOf(history), FactsOf(history + more);
      && (f.hasAppeal ==> g.hasAppeal) && f.aspects <= g.aspects
      && (f.score != 0 ==> g.score == f.score) && (f.content != "" ==> g.content == f.content)
    decreases |more|
  {
    if more == [] {
      assert history + more == history;
    } else {
      var n := |more| - 1;
      FactsGrow(history, more[..n]);
      var all := history + more;
      assert all[..|all| - 1] == history + more[..n];
    }
  }

  lemma EmptyHasNoKeyword(content: string)
    requires content == ""
    ensures forall k | k in KEYWORDS :: !Contains(ToLower(content), k)
  {
    assert ToLower(content) == "";
    forall k | k in KEYWORDS
      ensures !Contains("", k)
    {
      assert k != "";
    }
  }

  lemma SignalsStay(f: Facts, g: Facts)
    requires QualitySignal(f) && f.aspects <= g.aspects && (f.content != "" ==> g.content == f.content)
    ensures QualitySignal(g)
  {
    if a :| a in f.aspects && EqualFold(a, "QUALITY") {
      assert a in g.aspects;
    } else if f.content == "" {
      EmptyHasNoKeyword(f.content);
    }
  }

  /**
    On a longer history a forced review stays forced once there is an appeal or a recorded score. A low
    rating that is only the absence of one is forced for as long as no higher score arrives.
   */
  lemma ForcedStays(history: seq<Finding>, more: seq<Finding>)
    requires Forced(FactsOf(history))
    ensures var f, g := FactsOf(history), FactsOf(history + more);
      && (f.hasAppeal || f.score != 0 ==> Forced(g))
      && (!f.hasAppeal ==> (Forced(g) <==> g.hasAppeal || g.score <= 2))
  {
    FactsGrow(history, more);
    var f, g := FactsOf(history), FactsOf(history + more);
    hide FactsOf, QualitySignal;
    if LowQuality(f) { SignalsStay(f, g); }
  }

  lemma ScoreCanStillCome(history: seq<Finding>)
    requires !FactsOf(history).hasAppeal && FactsOf(history).score == 0
    ensures exists more :: !Forced(FactsOf(history + more))
  {
    var happy := Finding("get_review_evidence", Object(Some(Evidence(1, 1, 1, 1, 1, 1, 5, "", false, false, false, 1)), [], None));
    var all := history + [happy];
    assert all[..|all| - 1] == history;
    assert FactsOf(all) == Absorb(FactsOf(history), happy);
    hide FactsOf, QualitySignal;
    assert !Forced(FactsOf(history + [happy]));
  }

  /** Being forced is final for exactly the histories with an appeal or a recorded score. */
  lemma ForcedForGood(history: seq<Finding>)
    requires Forced(FactsOf(history))
    ensures (forall more :: Forced(FactsOf(history + more))) <==> FactsOf(history).hasAppeal || FactsOf(history).score != 0
  {
    hide FactsOf, Forced;
    if FactsOf(history).hasAppeal || FactsOf(history).score != 0 {
      forall more
        ensures Forced(FactsOf(history + more))
      {
        ForcedStays(history, more);
      }
    } else {
      ScoreCanStillCome(history);
    }
  }
}
