/** What happens once the model has decided: the guard, the lock, the grant and the stored decision. */
module Finalizer {
  import opened DecisionContext
  import opened Guard
  import opened Grants
  import opened Journal
  import opened Locks
  import opened Options
  import opened Text
  import Leases
  import SessionScope

  datatype Input = Input(
    sessionId: string, executionId: string, decision: Decision, history: seq<Finding>, activityId: string, policyVersion: string)

  datatype Outcome = Outcome(
    attempted: bool, success: bool, duplicated: bool, attempts: nat, retryable: bool, couponId: string, message: string,
    error: string, scene: string, idempotencyKey: string, executionStatus: string)

  /** The request to the decision store. The full model output it also carries is left out. */
  datatype Stored = Stored(
    decisionId: string, reviewId: int, storeId: int, skuId: int, spuId: int, evidenceVersion: int, decisionRevision: int,
    userId: int, score: int, content: string, scene: string, action: string, riskLevel: string, couponGranted: bool, couponId: string,
    reason: string, traceId: string, evidenceIds: seq<string>, activityId: string, policyVersion: string,
    executionStatus: string, reasonCodes: seq<string>)

  datatype Step = Step(number: nat, error: string)

  // ---- Deciding whether to call the coupon service -------------------------------------------

  /** Either no call and the reason for it, or the request. */
  datatype Gate = Skip(message: string, status: string) | Ask(req: Request)

  const NOT_WANTED := "decision does not require coupon grant"
  const NO_SERVICE := "coupon grant service is not configured"
  const INCOMPLETE := "campaign context is missing activity, store, user, or product"
  const CONSTRAINED := "campaign constraints rejected coupon grant"
  const UNKNOWN_SCENE := "unknown coupon scene"

  function OrderNo(orderId: int): string {
    if orderId <= 0 then "" else Decimal(orderId)
  }

  function GateOf(configured: bool, sceneOf: string -> string, d: Decision, c: Context): Gate {
    var productId := if c.skuId > 0 then c.skuId else c.spuId;
    if !EqualFold(d.action, "GRANT_COUPON") || d.needHumanReview then
      Skip(NOT_WANTED, if d.needHumanReview then "MANUAL_REVIEW" else "REJECTED")
    else if !configured then Skip(NO_SERVICE, "PROPOSED")
    else if c.activityId == "" || c.storeId <= 0 || c.userId <= 0 || productId <= 0 then
      Skip(INCOMPLETE, "REJECTED")
    else if !MeetsConstraints(c) then Skip(CONSTRAINED, "REJECTED")
    else if sceneOf(d.scene) == "" then Skip(UNKNOWN_SCENE, "REJECTED")
    else
      Ask(Request(c.storeId, c.userId, c.reviewId, OrderNo(c.orderId), productId, c.score, c.hasMedia, c.isFirstReview, sceneOf(d.scene),
                  c.activityId, c.policyVersion, c.evidenceVersion, c.couponTemplateId, SessionScope.GrantKey(c.reviewId, c.storeId)))
  }

  /** A request for the coupon of the review that the context is about. */
  ghost predicate Fills(req: Request, c: Context, scene: string) {
    && req.storeId == c.storeId && req.userId == c.userId && req.reviewId == c.reviewId
    && req.orderNo == (if c.orderId > 0 then Decimal(c.orderId) else "")
    && req.productId == (if c.skuId > 0 then c.skuId else c.spuId)
    && req.rating == c.score && req.hasImage == c.hasMedia && req.isFirstReview == c.isFirstReview
    && req.scene == scene
    && req.activityId == c.activityId && req.policyVersion == c.policyVersion && req.evidenceVersion == c.evidenceVersion
    && req.couponTemplateId == c.couponTemplateId
    && req.idempotencyKey == "review:store:" + Decimal(c.storeId) + ":review:" + Decimal(c.reviewId)
  }

  predicate Wanted(d: Decision) {
    EqualFold(d.action, "GRANT_COUPON") && !d.needHumanReview
  }

  predicate Identified(c: Context) {
    c.activityId != "" && c.storeId > 0 && c.userId > 0 && (c.skuId > 0 || c.spuId > 0)
  }

  /** Why there is no call: the first check that fails names itself. */
  ghost predicate Declines(message: string, status: string, configured: bool, d: Decision, c: Context) {
    && (message == NOT_WANTED <==> !Wanted(d))
    && (message == NO_SERVICE <==> Wanted(d) && !configured)
    && (message == INCOMPLETE <==> Wanted(d) && configured && !Identified(c))
    && (message == CONSTRAINED <==> Wanted(d) && configured && Identified(c) && !MeetsConstraints(c))
    && (message == UNKNOWN_SCENE <==> Wanted(d) && configured && Identified(c) && MeetsConstraints(c))
    && (status == "MANUAL_REVIEW" <==> d.needHumanReview) && (status == "PROPOSED" <==> Wanted(d) && !configured)
    && status in ["MANUAL_REVIEW", "PROPOSED", "REJECTED"]
  }

  lemma MessagesDiffer()
    ensures NOT_WANTED != NO_SERVICE && NOT_WANTED != INCOMPLETE && NOT_WANTED != CONSTRAINED && NOT_WANTED != UNKNOWN_SCENE
    ensures NO_SERVICE != INCOMPLETE && NO_SERVICE != CONSTRAINED && NO_SERVICE != UNKNOWN_SCENE
    ensures INCOMPLETE != CONSTRAINED && INCOMPLETE != UNKNOWN_SCENE && CONSTRAINED != UNKNOWN_SCENE
  {
    assert |NOT_WANTED| == |NO_SERVICE| == 38 && NOT_WANTED[37] == 't' && NO_SERVICE[37] == 'd';
    assert |INCOMPLETE| == 61 && |CONSTRAINED| == 42 && |UNKNOWN_SCENE| == 20;
  }

  /** The gate lets through a wanted grant that nothing speaks against, as a request for this review; otherwise it says why not. */
  lemma GateDecides(configured: bool, sceneOf: string -> string, d: Decision, c: Context)
    ensures var gate := GateOf(configured, sceneOf, d, c);
      && (gate.Ask? <==> Wanted(d) && configured && Identified(c) && MeetsConstraints(c) && sceneOf(d.scene) != "")
      && (gate.Ask? ==> Fills(gate.req, c, sceneOf(d.scene)))
      && (gate.Skip? ==> Declines(gate.message, gate.status, configured, d, c))
  {
    MessagesDiffer();
    assert |"MANUAL_REVIEW"| == 13 && |"PROPOSED"| == |"REJECTED"| == 8 && "PROPOSED"[0] == 'P' && "REJECTED"[0] == 'R';
    hide EqualFold, MeetsConstraints, Decimal, NOT_WANTED, NO_SERVICE, INCOMPLETE, CONSTRAINED, UNKNOWN_SCENE;
    assert "review:" + "store:" == "review:store:";
  }

  /** The outcome of a gate and the calls that were made for it. */
  ghost predicate Results(gate: Gate, calls: seq<Response>, cancelled: Option<string>, o: Outcome) {
    match gate
    case Skip(message, status) =>
      calls == [] && o == Outcome(false, false, false, 0, false, "", message, "", "", "", status)
    case Ask(req) =>
      && o.attempted && o.attempts == |calls| && o.scene == req.scene && o.idempotencyKey == req.idempotencyKey
      && Series(calls)
      && match calls[|calls| - 1]
         case Answered(r) =>
           && o.success == r.success && o.duplicated == r.duplicated && o.couponId == r.couponId && o.message == r.message
           && !o.retryable && o.error == "" && o.executionStatus == if r.success then "GRANTED" else "REJECTED"
         case Failed(e) =>
           && !o.success && !o.duplicated && o.couponId == "" && o.executionStatus == "GRANT_FAILED"
           && o.message == "coupon grant failed; decision stored as not granted"
           && o.error == (if cancelled.Some? then cancelled.value else e) && (o.retryable <==> Retryable(o.error))
           && (if cancelled.Some? then |calls| < 3 && Retryable(e) else |calls| == 3 || !Retryable(e))
  }

  /** What a gate and the responses to it put into the ledger. */
  ghost function Exchanges(gate: Gate, calls: seq<Response>): seq<Exchange> {
    if gate.Ask? then Asked(gate.req, calls) else []
  }

  // ---- What is stored ------------------------------------------------------------------------

  function AppendSentence(base: string, sentence: string): string {
    if Trim(base) == "" then Trim(sentence) else Trim(base) + Trim(sentence)
  }

  function JoinReason(base: string, extra: string): string {
    if Trim(base) == "" then Trim(extra) else if Trim(extra) == "" then Trim(base) else Trim(base) + "；" + Trim(extra)
  }

  const NOT_CONFIGURED := "当前仅生成发券建议，发券服务未配置，实际未发券。"
  const COUPON_SENT := "优惠券已成功发放。"
  const CALL_FAILED := "发券调用失败，系统已按未发券状态落库，后续可依据幂等键重试补发。"

  function DecisionWithCouponGrant(d: Decision, o: Outcome): Decision {
    if !EqualFold(d.action, "GRANT_COUPON") then d
    else if !o.attempted then
      d.(policyTags := WithTag(d.policyTags, "COUPON_GRANT_NOT_CONFIGURED"), finalAnswer := AppendSentence(d.finalAnswer, NOT_CONFIGURED))
    else if o.success then
      d.(policyTags := WithTag(d.policyTags, "COUPON_GRANTED"), finalAnswer := AppendSentence(d.finalAnswer, COUPON_SENT))
    else
      var refused := if o.executionStatus == "REJECTED"
        then d.(action := "NO_COUPON", couponSuggestion := "", policyTags := WithTag(d.policyTags, "CAMPAIGN_CONSTRAINT_REJECTED")) else d;
      refused.(policyTags := WithTag(refused.policyTags, "COUPON_GRANT_FAILED"), finalAnswer := AppendSentence(d.finalAnswer, CALL_FAILED))
  }

  function ReasonWithCouponGrant(reason: string, o: Outcome): string {
    if !o.attempted then JoinReason(reason, "发券未执行：" + o.message)
    else if o.success then JoinReason(reason, "发券成功：" + o.message)
    else JoinReason(reason, "发券失败，已按未发券落库：" + (if o.error == "" then o.message else o.error))
  }

  /** The tools' context, completed by what the caller of the agent supplied. */
  function FullContext(input: Input): Context {
    var c := ContextOf(input.history);
    c.(activityId := DefaultIfBlank(c.activityId, input.activityId), policyVersion := DefaultIfBlank(c.policyVersion, input.policyVersion))
  }

  /** What the tools reported, completed by the caller's activity and policy where they reported none. */
  ghost predicate Completes(input: Input, c: Context) {
    exists told :: ContextTells(input.history, told)
      && c == told.(activityId := if told.activityId != "" then told.activityId else Trim(input.activityId),
                    policyVersion := if told.policyVersion != "" then told.policyVersion else Trim(input.policyVersion))
  }

  lemma ContextIsComplete(input: Input)
    ensures Completes(input, FullContext(input))
  {
    ContextIsTold(input.history);
    var told := ContextOf(input.history);
    assert LabelOf(told, ActivityId) == told.activityId && LabelOf(told, PolicyVersion) == told.policyVersion;
    LabelIsTrimmed(input.history, ActivityId, told.activityId);
    LabelIsTrimmed(input.history, PolicyVersion, told.policyVersion);
    hide ContextTells, ContextOf, Trim;
    assert ContextTells(input.history, told);
  }

  lemma LabelIsTrimmed(history: seq<Finding>, tag: Label, value: string)
    requires LabelGiven(history, tag, value)
    ensures Trim(value) == value
  {
    hide LabelIn;
    TrimFacts("");
    if value != "" {
      var i :| 0 <= i < |history| && IsCampaign(history[i]) && Trim(LabelIn(history[i].output.campaign.value, tag)) == value;
      TrimFacts(LabelIn(history[i].output.campaign.value, tag));
      TrimFacts(value);
    }
  }

  function StoreRequest(input: Input, d: Decision, c: Context, o: Outcome): Stored {
    Stored(
      SessionScope.ReviewKey("agent:", c.storeId, c.reviewId), c.reviewId, c.storeId, c.skuId, c.spuId, c.evidenceVersion,
      if c.evidenceVersion <= 0 then 1 else c.evidenceVersion, c.userId, c.score, c.content,
      DefaultIfBlank(d.scene, "review_coupon"), DefaultIfBlank(d.action, "NO_COUPON"), DefaultIfBlank(d.riskLevel, "unknown"),
      o.success, o.couponId, ReasonWithCouponGrant(DefaultIfBlank(d.reason, d.reasoning), o),
      DefaultIfBlank(input.executionId, input.sessionId), c.evidenceIds, c.activityId, c.policyVersion, o.executionStatus, d.policyTags)
  }

  /** The reason as it is stored: the decision's own, and after it how the grant went. */
  ghost predicate Explains(reason: string, d: Decision, o: Outcome) {
    var own := if Trim(d.reason) != "" then Trim(d.reason) else Trim(d.reasoning);
    var news := Trim(if !o.attempted then "发券未执行：" + o.message
                     else if o.success then "发券成功：" + o.message
                     else "发券失败，已按未发券落库：" + (if o.error != "" then o.error else o.message));
    reason == if own == "" then news else if news == "" then own else own + "；" + news
  }

  /** Every field of a stored decision. */
  ghost predicate Files(p: Stored, input: Input, d: Decision, c: Context, o: Outcome) {
    && p.decisionId == "agent:store:" + Decimal(c.storeId) + ":review:" + Decimal(c.reviewId)
    && p.reviewId == c.reviewId && p.storeId == c.storeId && p.skuId == c.skuId && p.spuId == c.spuId && p.userId == c.userId
    && p.evidenceVersion == c.evidenceVersion && p.decisionRevision == (if c.evidenceVersion > 0 then c.evidenceVersion else 1)
    && p.score == c.score && p.content == c.content && p.evidenceIds == c.evidenceIds
    && p.activityId == c.activityId && p.policyVersion == c.policyVersion
    && p.scene == (if Trim(d.scene) != "" then Trim(d.scene) else "review_coupon")
    && p.action == (if Trim(d.action) != "" then Trim(d.action) else "NO_COUPON")
    && p.riskLevel == (if Trim(d.riskLevel) != "" then Trim(d.riskLevel) else "unknown")
    && p.couponGranted == o.success && p.couponId == o.couponId && p.executionStatus == o.executionStatus
    && p.reasonCodes == d.policyTags && Explains(p.reason, d, o)
    && p.traceId == (if Trim(input.executionId) != "" then Trim(input.executionId) else Trim(input.sessionId))
  }

  lemma DefaultsAreTrimmed()
    ensures Trim("review_coupon") == "review_coupon" && Trim("NO_COUPON") == "NO_COUPON" && Trim("unknown") == "unknown"
  {
    TrimFacts("review_coupon");
    TrimFacts("NO_COUPON");
    TrimFacts("unknown");
  }

  lemma ReasonExplains(d: Decision, o: Outcome)
    ensures Explains(ReasonWithCouponGrant(DefaultIfBlank(d.reason, d.reasoning), o), d, o)
  {
    var own := DefaultIfBlank(d.reason, d.reasoning);
    TrimFacts(d.reason);
    TrimFacts(d.reasoning);
    TrimFacts(own);
    hide Trim, IsTrimmed;
  }

  /** The stored decision is about this review, and says what was decided and what came of it. */
  lemma StoredInFull(input: Input, d: Decision, c: Context, o: Outcome)
    ensures Files(StoreRequest(input, d, c, o), input, d, c, o)
  {
    DefaultsAreTrimmed();
    ReasonExplains(d, o);
    hide Trim, Explains, ReasonWithCouponGrant, Decimal;
    assert "agent:" + "store:" == "agent:store:";
  }

  /** How a decision to grant is told once the grant has been tried: a tag, a sentence, and NO_COUPON if it was turned down. */
  ghost predicate Announces(d: Decision, o: Outcome, r: Decision) {
    var turnedDown := o.attempted && !o.success && o.executionStatus == "REJECTED";
    && (!EqualFold(d.action, "GRANT_COUPON") ==> r == d)
    && (EqualFold(d.action, "GRANT_COUPON") ==>
          && (if turnedDown then r.action == "NO_COUPON" && r.couponSuggestion == "" && HasTag(r.policyTags, "CAMPAIGN_CONSTRAINT_REJECTED")
              else r.action == d.action && r.couponSuggestion == d.couponSuggestion)
          && d.policyTags <= r.policyTags
          && HasTag(r.policyTags, if !o.attempted then "COUPON_GRANT_NOT_CONFIGURED" else if o.success then "COUPON_GRANTED" else "COUPON_GRANT_FAILED")
          && r.finalAnswer == Trim(d.finalAnswer) + Trim(if !o.attempted then NOT_CONFIGURED else if o.success then COUPON_SENT else CALL_FAILED)
          && r == d.(action := r.action, couponSuggestion := r.couponSuggestion, policyTags := r.policyTags, finalAnswer := r.finalAnswer))
  }

  lemma SentenceFollows(base: string, sentence: string)
    ensures AppendSentence(base, sentence) == Trim(base) + Trim(sentence)
  {
    hide Trim;
  }

  lemma TagsOfRefusal(tags: seq<string>)
    ensures var one := WithTag(tags, "CAMPAIGN_CONSTRAINT_REJECTED"); var two := WithTag(one, "COUPON_GRANT_FAILED");
      tags <= two && HasTag(two, "CAMPAIGN_CONSTRAINT_REJECTED") && HasTag(two, "COUPON_GRANT_FAILED")
  {
    var one := WithTag(tags, "CAMPAIGN_CONSTRAINT_REJECTED");
    WithTagFacts(tags, "CAMPAIGN_CONSTRAINT_REJECTED");
    WithTagFacts(one, "COUPON_GRANT_FAILED");
    TagStays(one, WithTag(one, "COUPON_GRANT_FAILED"), "CAMPAIGN_CONSTRAINT_REJECTED");
  }

  lemma OutcomeIsAnnounced(d: Decision, o: Outcome)
    ensures Announces(d, o, DecisionWithCouponGrant(d, o))
  {
    hide EqualFold, HasTag, WithTag, Trim, AppendSentence, NOT_CONFIGURED, COUPON_SENT, CALL_FAILED;
    if !o.attempted {
      WithTagFacts(d.policyTags, "COUPON_GRANT_NOT_CONFIGURED");
      SentenceFollows(d.finalAnswer, NOT_CONFIGURED);
    } else if o.success {
      WithTagFacts(d.policyTags, "COUPON_GRANTED");
      SentenceFollows(d.finalAnswer, COUPON_SENT);
    } else {
      WithTagFacts(d.policyTags, "COUPON_GRANT_FAILED");
      TagsOfRefusal(d.policyTags);
      SentenceFollows(d.finalAnswer, CALL_FAILED);
    }
  }

  /** A stored decision that claims a coupon is backed by the ledger, and its status and action agree with the claim. */
  predicate Backed(p: Stored, coupons: seq<Request>) {
    && (p.couponGranted <==> p.executionStatus == "GRANTED")
    && (p.couponGranted ==> EqualFold(p.action, "GRANT_COUPON") && HasReview(coupons, p.storeId, p.reviewId))
  }

  predicate AllBacked(decisions: seq<Noted<Stored>>, coupons: seq<Request>) {
    forall p | p in decisions :: Backed(p.what, coupons)
  }

  /** What a finalization did beyond guarding: the table of locks when it had its own, its calls, and what it sent to the store. */
  datatype Trace = Trace(
    keys: map<string, Leases.Lease>, clock: nat, token: nat, calls: seq<Response>, cancelled: Option<string>, outcome: Outcome, request: Stored)

  /** Everything a finalization may do and answer. */
  ghost predicate Finalized(storing: bool, locking: bool, granting: bool, suggest: string -> string, sceneOf: string -> string,
                            input: Input, decision: Decision, step: Option<Step>, trace: Option<Trace>) {
    var d, c := Guarded(suggest, input.decision, FactsOf(input.history)), FullContext(input);
    && step.Some? == storing
    && (step.Some? ==> step.value.number == |input.history| + 1)
    && (c.reviewId <= 0 || c.storeId <= 0 ==> trace.None?)
    && match trace
       case None => decision == d && (storing ==> Trim(step.value.error) != "" && (locking || c.reviewId <= 0 || c.storeId <= 0))
       case Some(t) =>
         && storing
         && Results(GateOf(granting, sceneOf, d, c), t.calls, t.cancelled, t.outcome)
         && decision == DecisionWithCouponGrant(d, t.outcome)
         && t.request == StoreRequest(input, decision, c, t.outcome)
  }

  class DecisionStore {
    /** The decisions that arrived, in order. */
    var decisions: seq<Noted<Stored>>

    constructor ()
      ensures decisions == []
    {
      decisions := [];
    }

    /** A decision can arrive although the call fails. An error has a text that is not blank. */
    method StoreDecision(p: Stored, who: nat, trip: Trip) returns (error: string)
      modifies this
      ensures decisions == if trip == NeverSent then old(decisions) else old(decisions) + [Noted(who, p)]
      ensures Trim(error) == "" <==> trip == Arrives
    {
      Worded("lost", 0);
      Worded("unreachable", 0);
      hide Trim;
      if trip == NeverSent {
        return "unreachable";
      }
      decisions := decisions + [Noted(who, p)];
      error := if trip == AnswerLost then "lost" else "";
      TrimFacts("");
    }

    /** Decisions of anyone but `me`. */
    method Others(more: seq<Stored>, me: nat)
      modifies this
      ensures Own(decisions, me) == Own(old(decisions), me) && old(decisions) <= decisions
      ensures forall p | p in decisions :: p in old(decisions) || p.what in more
    {
      for i := 0 to |more|
        invariant Own(decisions, me) == Own(old(decisions), me) && old(decisions) <= decisions
        invariant forall p | p in decisions :: p in old(decisions) || p.what in more
      {
        OwnFurther(decisions, Noted(me + 1, more[i]), me);
        decisions := decisions + [Noted(me + 1, more[i])];
      }
    }
  }

  /** What the calls of one finalization to Redis and to the store meet with. */
  datatype Weather = Weather(random: Option<nat>, acquire: Trip, storing: Trip, release: Trip)

  class ReviewCouponFinalizer {
    const store: DecisionStore
    const storing: bool
    const lock: DistributedLock
    const locking: bool
    const ledger: GrantLedger
    const granting: bool
    const suggest: string -> string
    const sceneOf: string -> string

    /** Its name in the ledger and in the store, and what it was asked to finalize so far. */
    const me: nat
    ghost var inputs: seq<Input>

    /** The flags say which of the services are configured. */
    constructor (store: DecisionStore, storing: bool, lock: DistributedLock, locking: bool, ledger: GrantLedger, granting: bool,
                 suggest: string -> string, sceneOf: string -> string, me: nat)
      ensures this.store == store && this.storing == storing && this.lock == lock && this.locking == locking
      ensures this.ledger == ledger && this.granting == granting && this.suggest == suggest && this.sceneOf == sceneOf
      ensures this.me == me && inputs == []
    {
      this.store, this.storing, this.lock, this.locking, this.ledger, this.granting := store, storing, lock, locking, ledger, granting;
      this.suggest, this.sceneOf, this.me, inputs := suggest, sceneOf, me, [];
    }

    /** Calls the coupon service and reports how that went. */
    method AskForCoupon(req: Request) returns (o: Outcome, ghost calls: seq<Response>, ghost cancelled: Option<string>)
      requires Sound(ledger.coupons) && Keyed(req)
      modifies ledger
      ensures Sound(ledger.coupons) && old(ledger.coupons) <= ledger.coupons
      ensures Results(Ask(req), calls, cancelled, o)
      ensures Own(ledger.exchanges, me) == Own(old(ledger.exchanges), me) + Exchanges(Ask(req), calls)
      ensures o.success ==> HasReview(ledger.coupons, req.storeId, req.reviewId)
    {
      hide Sound, HasReview, Retryable, Keyed, Own;
      var reply, attempts, error;
      reply, attempts, error, calls, cancelled := GrantCouponWithRetry(ledger, req, me);
      var scene, key := req.scene, req.idempotencyKey;
      if reply.None? {
        var retryable := IsRetryableCouponGrantError(error);
        o := Outcome(true, false, false, attempts, retryable, "", "coupon grant failed; decision stored as not granted", error,
                     scene, key, "GRANT_FAILED");
        return;
      }
      var status := "REJECTED";
      if reply.value.success {
        status := "GRANTED";
      }
      o := Outcome(true, reply.value.success, reply.value.duplicated, attempts, false, reply.value.couponId, reply.value.message, "",
                   scene, key, status);
    }

    /** The checks before any call. */
    method CheckGrant(d: Decision, dc: Context) returns (gate: Gate)
      ensures gate == GateOf(granting, sceneOf, d, dc)
      ensures gate.Ask? <==> Wanted(d) && granting && Identified(dc) && MeetsConstraints(dc) && sceneOf(d.scene) != ""
      ensures gate.Ask? ==> Fills(gate.req, dc, sceneOf(d.scene))
      ensures gate.Skip? ==> Declines(gate.message, gate.status, granting, d, dc)
    {
      GateDecides(granting, sceneOf, d, dc);
      hide Wanted, Identified, Fills, Declines;
      hide EqualFold, SessionScope.GrantKey, OrderNo, NOT_WANTED, NO_SERVICE, INCOMPLETE, CONSTRAINED, UNKNOWN_SCENE;
      if !EqualFold(d.action, "GRANT_COUPON") || d.needHumanReview {
        var status := "REJECTED";
        if d.needHumanReview {
          status := "MANUAL_REVIEW";
        }
        return Skip(NOT_WANTED, status);
      }
      if !granting {
        return Skip(NO_SERVICE, "PROPOSED");
      }
      var productId := FirstPositive(FirstPositive(0, dc.skuId), dc.spuId);
      if dc.activityId == "" || dc.storeId <= 0 || dc.userId <= 0 || productId <= 0 {
        return Skip(INCOMPLETE, "REJECTED");
      }
      if || !dc.campaignActive || !dc.productEligible || !dc.userEligible || dc.remainingStock <= 0 || dc.remainingBudgetCent <= 0
         || (dc.userGrantLimit > 0 && dc.userGrantedCount >= dc.userGrantLimit) {
        return Skip(CONSTRAINED, "REJECTED");
      }
      var scene := sceneOf(d.scene);
      if scene == "" {
        return Skip(UNKNOWN_SCENE, "REJECTED");
      }
      var key := SessionScope.GrantKey(dc.reviewId, dc.storeId);
      gate := Ask(Request(dc.storeId, dc.userId, dc.reviewId, OrderNo(dc.orderId), productId, dc.score, dc.hasMedia, dc.isFirstReview, scene,
                          dc.activityId, dc.policyVersion, dc.evidenceVersion, dc.couponTemplateId, key));
    }

    method GrantCouponIfNeeded(d: Decision, dc: Context) returns (o: Outcome, ghost calls: seq<Response>, ghost cancelled: Option<string>)
      requires Sound(ledger.coupons)
      modifies ledger
      ensures Sound(ledger.coupons) && old(ledger.coupons) <= ledger.coupons
      ensures Results(GateOf(granting, sceneOf, d, dc), calls, cancelled, o)
      ensures Own(ledger.exchanges, me) == Own(old(ledger.exchanges), me) + Exchanges(GateOf(granting, sceneOf, d, dc), calls)
      ensures o.success ==> HasReview(ledger.coupons, dc.storeId, dc.reviewId)
    {
      hide Sound, HasReview, Series, EqualFold, MeetsConstraints, Own;
      var gate := CheckGrant(d, dc);
      match gate {
        case Skip(message, status) =>
          o, calls, cancelled := Outcome(false, false, false, 0, false, "", message, "", "", "", status), [], None;
        case Ask(req) =>
          assert Keyed(req) && req.storeId == dc.storeId && req.reviewId == dc.reviewId;
          hide GateOf, Results, Exchanges;
          o, calls, cancelled := AskForCoupon(req);
      }
    }

    /** Other instances, which use the ledger and store decisions in the same way, and take their time. */
    method Others()
      requires Sound(ledger.coupons) && AllBacked(store.decisions, ledger.coupons)
      modifies ledger, store, lock.server
      ensures Sound(ledger.coupons) && AllBacked(store.decisions, ledger.coupons)
      ensures old(ledger.coupons) <= ledger.coupons && old(store.decisions) <= store.decisions
      ensures Own(ledger.exchanges, me) == Own(old(ledger.exchanges), me) && Own(store.decisions, me) == Own(old(store.decisions), me)
    {
      var requests: seq<Request>, decisions: seq<Stored>, locks: seq<Leases.Op<string>>, ttl: nat := *, *, *, *;
      if forall r | r in requests :: Keyed(r) {
        ledger.Others(requests, me);
        StayBacked(store.decisions, old(ledger.coupons), ledger.coupons);
        if forall p | p in decisions :: Backed(p, ledger.coupons) {
          store.Others(decisions, me);
        }
      }
      lock.server.Others(locks, ttl);
    }

    method Finalize(input: Input, weather: Weather) returns (decision: Decision, step: Option<Step>, ghost trace: Option<Trace>)
      requires Sound(ledger.coupons) && AllBacked(store.decisions, ledger.coupons)
      modifies this`inputs, ledger, store, lock.server
      ensures Sound(ledger.coupons) && AllBacked(store.decisions, ledger.coupons)
      ensures old(ledger.coupons) <= ledger.coupons && old(store.decisions) <= store.decisions
      ensures inputs == old(inputs) + [input]
      ensures Finalized(storing, locking, granting, suggest, sceneOf, input, decision, step, trace)
      ensures trace.Some? <==> storing && Proceeds(FullContext(input), weather, old(lock.server.keys))
      ensures trace.Some? ==> Settled(input, Guarded(suggest, input.decision, FactsOf(input.history)), FullContext(input), weather,
        decision, step.value.error, trace.value)
      ensures trace.Some? && locking ==> Locked(FullContext(input), weather, trace.value, lock.server.keys)
      ensures Did(input, weather, trace, old(ledger.exchanges), ledger.exchanges, old(store.decisions), store.decisions)
      ensures OnlyClearCalls(input, old(ledger.exchanges), ledger.exchanges)
    {
      hide Obtains, Settled, Locked, Did, Own, OnlyClearCalls, Finalized, Overruled, ContextTells;
      hide Sound, AllBacked, Guarded, FactsOf, ContextOf, Results, Trim, GateOf, DefaultIfBlank, DecisionWithCouponGrant, StoreRequest, LockKey;
      trace := None;
      inputs := inputs + [input];
      decision := ApplyDecisionGuard(suggest, input.decision, input.history);
      DidNothing(input, weather, ledger.exchanges, store.decisions);
      if !storing {
        EarlyIsFinalized(input, decision, None);
        return decision, None, trace;
      }
      var number := |input.history| + 1;
      var dc := ExtractDecisionContext(input.history);
      dc := dc.(activityId := DefaultIfBlank(dc.activityId, input.activityId));
      dc := dc.(policyVersion := DefaultIfBlank(dc.policyVersion, input.policyVersion));
      if dc.reviewId <= 0 || dc.storeId <= 0 {
        var missing := "missing review_id or store_id for decision persistence";
        Worded(missing, |missing| - 1);
        step := Some(Step(number, missing));
        EarlyIsFinalized(input, decision, step);
        return;
      }
      var error;
      ghost var guarded, exchanges, decisions := decision, ledger.exchanges, store.decisions;
      decision, error, trace := UnderLock(input, decision, dc, weather);
      step := Some(Step(number, error));
      if trace.Some? {
        SettledIsFinalized(input, guarded, dc, weather, decision, step.value, trace.value);
        DidSettle(input, guarded, dc, weather, decision, error, trace.value, exchanges, ledger.exchanges, decisions, store.decisions);
      } else {
        EarlyIsFinalized(input, decision, step);
      }
    }

    function LockKey(dc: Context): string {
      SessionScope.ReviewKey("decision:", dc.storeId, dc.reviewId)
    }

    /** All decisions about one review of a store contend for one lock, and no others do. */
    lemma LockIsTheReviews(a: Context, b: Context)
      ensures LockKey(a) == "decision:store:" + Decimal(a.storeId) + ":review:" + Decimal(a.reviewId)
      ensures LockKey(a) == LockKey(b) <==> a.storeId == b.storeId && a.reviewId == b.reviewId
    {
      hide Decimal;
      assert "decision:" + "store:" == "decision:store:";
      if LockKey(a) == LockKey(b) { SessionScope.ReviewKeyInjective("decision:", a.storeId, a.reviewId, b.storeId, b.reviewId); }
    }

    /** There is a review to decide, and no lock in the way. */
    ghost predicate Proceeds(dc: Context, weather: Weather, keys: map<string, Leases.Lease>) {
      dc.reviewId > 0 && dc.storeId > 0 && (locking ==> Obtains(dc, weather, keys))
    }

    /** The lock is free, and Redis says so. */
    ghost predicate Obtains(dc: Context, weather: Weather, keys: map<string, Leases.Lease>) {
      weather.random.Some? && weather.acquire == Arrives && lock.prefix + LockKey(dc) !in keys
    }

    /** The work was begun under the lock, and unless the release never got out the lock is no longer this one's. */
    ghost predicate Locked(dc: Context, weather: Weather, t: Trace, keys: map<string, Leases.Lease>) {
      var key := lock.prefix + LockKey(dc);
      && Leases.Holds(t.keys, key, t.token, t.clock + lock.ttl) && weather.random == Some(t.token)
      && (weather.release != NeverSent && key in keys ==> keys[key].token != t.token)
    }

    /** What the work under the lock comes to. */
    ghost predicate Settled(input: Input, guarded: Decision, dc: Context, weather: Weather, decision: Decision, error: string, t: Trace) {
      && Results(GateOf(granting, sceneOf, guarded, dc), t.calls, t.cancelled, t.outcome)
      && decision == DecisionWithCouponGrant(guarded, t.outcome)
      && t.request == StoreRequest(input, decision, dc, t.outcome)
      && (Trim(error) == "" <==> weather.storing == Arrives)
    }

    /** What it leaves in the ledger and in the store under its own name. */
    ghost predicate Left(gate: Gate, weather: Weather, t: Trace, exchanges: seq<Noted<Exchange>>, exchanges': seq<Noted<Exchange>>,
                         decisions: seq<Noted<Stored>>, decisions': seq<Noted<Stored>>) {
      && Own(exchanges', me) == Own(exchanges, me) + Exchanges(gate, t.calls)
      && Own(decisions', me) == Own(decisions, me) + (if weather.storing == NeverSent then [] else [t.request])
    }

    /** Everything a finalization leaves in the ledger and in the store under its own name. */
    ghost predicate Did(input: Input, weather: Weather, trace: Option<Trace>, exchanges: seq<Noted<Exchange>>, exchanges': seq<Noted<Exchange>>,
                        decisions: seq<Noted<Stored>>, decisions': seq<Noted<Stored>>) {
      match trace
      case None => exchanges' == exchanges && decisions' == decisions
      case Some(t) =>
        Left(GateOf(granting, sceneOf, Guarded(suggest, input.decision, FactsOf(input.history)), FullContext(input)), weather, t,
             exchanges, exchanges', decisions, decisions')
    }

    /** Each call that reached the ledger under this name was for a grant that is clear, and was filled in from this review's context. */
    ghost predicate OnlyClearCalls(input: Input, exchanges: seq<Noted<Exchange>>, exchanges': seq<Noted<Exchange>>) {
      var n, calls, c := |Own(exchanges, me)|, Own(exchanges', me), FullContext(input);
      && n <= |calls| <= n + 3
      && forall i | n <= i < |calls| ::
        && GrantIsClear(granting, sceneOf, input)
        && Keyed(calls[i].req) && Completes(input, c) && Fills(calls[i].req, c, sceneOf(input.decision.scene))
    }

    lemma DidNothing(input: Input, weather: Weather, exchanges: seq<Noted<Exchange>>, decisions: seq<Noted<Stored>>)
      ensures Did(input, weather, None, exchanges, exchanges, decisions, decisions)
      ensures OnlyClearCalls(input, exchanges, exchanges)
    {
      hide Own, GrantIsClear, FullContext;
    }

    lemma DidSettle(input: Input, guarded: Decision, dc: Context, weather: Weather, decision: Decision, error: string, t: Trace,
                    exchanges: seq<Noted<Exchange>>, exchanges': seq<Noted<Exchange>>, decisions: seq<Noted<Stored>>, decisions': seq<Noted<Stored>>)
      requires guarded == Guarded(suggest, input.decision, FactsOf(input.history)) && dc == FullContext(input)
      requires Settled(input, guarded, dc, weather, decision, error, t)
      requires Left(GateOf(granting, sceneOf, guarded, dc), weather, t, exchanges, exchanges', decisions, decisions')
      ensures Did(input, weather, Some(t), exchanges, exchanges', decisions, decisions')
      ensures OnlyClearCalls(input, exchanges, exchanges')
    {
      hide *;
      var gate := GateOf(granting, sceneOf, guarded, dc);
      SettledResults(input, guarded, dc, weather, decision, error, t);
      AskedExactlyWhenClear(granting, suggest, sceneOf, input);
      ContextIsComplete(input);
      CallsAreFew(gate, t.calls, t.cancelled, t.outcome);
      LeftIsDid(input, weather, t, exchanges, exchanges', decisions, decisions');
      FewClearCalls(input, gate, weather, t, exchanges, exchanges', decisions, decisions');
    }

    lemma SettledResults(input: Input, guarded: Decision, dc: Context, weather: Weather, decision: Decision, error: string, t: Trace)
      requires Settled(input, guarded, dc, weather, decision, error, t)
      ensures Results(GateOf(granting, sceneOf, guarded, dc), t.calls, t.cancelled, t.outcome)
    {
      hide Results, GateOf, DecisionWithCouponGrant, StoreRequest, Trim;
    }

    lemma LeftIsDid(input: Input, weather: Weather, t: Trace, exchanges: seq<Noted<Exchange>>, exchanges': seq<Noted<Exchange>>,
                    decisions: seq<Noted<Stored>>, decisions': seq<Noted<Stored>>)
      requires Left(GateOf(granting, sceneOf, Guarded(suggest, input.decision, FactsOf(input.history)), FullContext(input)), weather, t,
        exchanges, exchanges', decisions, decisions')
      ensures Did(input, weather, Some(t), exchanges, exchanges', decisions, decisions')
    {
      hide Left, GateOf, Guarded, FactsOf, FullContext;
    }

    lemma FewClearCalls(input: Input, gate: Gate, weather: Weather, t: Trace, exchanges: seq<Noted<Exchange>>, exchanges': seq<Noted<Exchange>>,
                        decisions: seq<Noted<Stored>>, decisions': seq<Noted<Stored>>)
      requires Left(gate, weather, t, exchanges, exchanges', decisions, decisions')
      requires |Exchanges(gate, t.calls)| <= 3 && (gate.Skip? ==> Exchanges(gate, t.calls) == [])
      requires gate.Ask? ==> forall x | x in Exchanges(gate, t.calls) :: x.req == gate.req
      requires gate.Ask? ==> var c := FullContext(input);
        GrantIsClear(granting, sceneOf, input) && Keyed(gate.req) && Completes(input, c) && Fills(gate.req, c, sceneOf(input.decision.scene))
      ensures OnlyClearCalls(input, exchanges, exchanges')
    {
      hide Own, Exchanges, GrantIsClear, FullContext, Keyed, Completes, Fills;
      var n, calls, added := |Own(exchanges, me)|, Own(exchanges', me), Exchanges(gate, t.calls);
      forall i | n <= i < |calls|
        ensures calls[i] == added[i - n] && calls[i] in added
      {
      }
    }

    lemma EarlyIsFinalized(input: Input, decision: Decision, step: Option<Step>)
      requires decision == Guarded(suggest, input.decision, FactsOf(input.history)) && step.Some? == storing
      requires step.Some? ==> step.value.number == |input.history| + 1 && Trim(step.value.error) != ""
      requires step.Some? ==> locking || FullContext(input).reviewId <= 0 || FullContext(input).storeId <= 0
      ensures Finalized(storing, locking, granting, suggest, sceneOf, input, decision, step, None)
    {
      hide Guarded, FactsOf, FullContext, Trim;
    }

    lemma SettledIsFinalized(input: Input, guarded: Decision, dc: Context, weather: Weather, decision: Decision, step: Step, t: Trace)
      requires guarded == Guarded(suggest, input.decision, FactsOf(input.history)) && dc == FullContext(input)
      requires Settled(input, guarded, dc, weather, decision, step.error, t)
      requires storing && dc.reviewId > 0 && dc.storeId > 0 && step.number == |input.history| + 1
      ensures Finalized(storing, locking, granting, suggest, sceneOf, input, decision, Some(step), Some(t))
    {
      hide Results, GateOf, Guarded, FactsOf, FullContext, DecisionWithCouponGrant, StoreRequest, Trim;
    }

    /** Takes the lock, settles the decision and releases the lock. */
    method UnderLock(input: Input, guarded: Decision, dc: Context, weather: Weather)
        returns (decision: Decision, error: string, ghost trace: Option<Trace>)
      requires Sound(ledger.coupons) && AllBacked(store.decisions, ledger.coupons)
      modifies ledger, store, lock.server
      ensures Sound(ledger.coupons) && AllBacked(store.decisions, ledger.coupons)
      ensures old(ledger.coupons) <= ledger.coupons && old(store.decisions) <= store.decisions
      ensures trace.Some? <==> (locking ==> Obtains(dc, weather, old(lock.server.keys)))
      ensures trace.None? ==> decision == guarded && Trim(error) != ""
      ensures trace.None? ==> ledger.exchanges == old(ledger.exchanges) && store.decisions == old(store.decisions)
      ensures trace.Some? ==> Settled(input, guarded, dc, weather, decision, error, trace.value)
      ensures trace.Some? ==> Left(GateOf(granting, sceneOf, guarded, dc), weather, trace.value,
        old(ledger.exchanges), ledger.exchanges, old(store.decisions), store.decisions)
      ensures trace.Some? && locking ==> Locked(dc, weather, trace.value, lock.server.keys)
    {
      hide Sound, AllBacked, Settled, LockKey, Trim, Left, GateOf;
      var lockKey, token := LockKey(dc), 0;
      if locking {
        var got, ok, err := lock.Acquire(lockKey, weather.random, weather.acquire);
        if err {
          var failed := "acquire decision lock failed";
          Worded(failed, |failed| - 1);
          return guarded, failed, None;
        }
        if !ok {
          var busy := "decision is already being processed by another agent instance";
          Worded(busy, |busy| - 1);
          return guarded, busy, None;
        }
        token := got.value;
      }
      ghost var keys, clock := lock.server.keys, lock.server.clock;
      ghost var t;
      decision, error, t := Settle(input, guarded, dc, weather, keys, clock, token);
      trace := Some(t);
      if locking {
        var _ := lock.Release(lockKey, token, weather.release);
      }
    }

    method Settle(input: Input, guarded: Decision, dc: Context, weather: Weather, ghost keys: map<string, Leases.Lease>, ghost clock: nat, token: nat)
        returns (decision: Decision, error: string, ghost t: Trace)
      requires Sound(ledger.coupons) && AllBacked(store.decisions, ledger.coupons)
      modifies ledger, store, lock.server
      ensures Sound(ledger.coupons) && AllBacked(store.decisions, ledger.coupons)
      ensures old(ledger.coupons) <= ledger.coupons && old(store.decisions) <= store.decisions
      ensures t.keys == keys && t.clock == clock && t.token == token
      ensures Settled(input, guarded, dc, weather, decision, error, t)
      ensures Left(GateOf(granting, sceneOf, guarded, dc), weather, t, old(ledger.exchanges), ledger.exchanges, old(store.decisions), store.decisions)
    {
      hide Sound, Results, GateOf, StoreRequest, DecisionWithCouponGrant, HasReview, Backed, Trim, Own;
      Others();
      ghost var before, filed := ledger.coupons, store.decisions;
      var grant;
      ghost var calls, cancelled;
      grant, calls, cancelled := GrantCouponIfNeeded(guarded, dc);
      StayBacked(store.decisions, before, ledger.coupons);
      decision := DecisionWithCouponGrant(guarded, grant);
      var req := StoreRequest(input, decision, dc, grant);
      t := Trace(keys, clock, token, calls, cancelled, grant, req);
      StoredIsBacked(granting, sceneOf, guarded, dc, calls, cancelled, grant, input, ledger.coupons);
      OwnFurther(filed, Noted(me, req), me);
      error := store.StoreDecision(req, me, weather.storing);
    }
  }

  lemma CallsAreFew(gate: Gate, calls: seq<Response>, cancelled: Option<string>, o: Outcome)
    requires Results(gate, calls, cancelled, o)
    ensures |Exchanges(gate, calls)| <= 3 && (gate.Skip? ==> Exchanges(gate, calls) == [])
    ensures gate.Ask? ==> forall x | x in Exchanges(gate, calls) :: x.req == gate.req
  {
    hide Retryable;
  }

  // ---- What is stored agrees with what was done ----------------------------------------------

  lemma StoredIsBacked(granting: bool, sceneOf: string -> string, d: Decision, c: Context, calls: seq<Response>, cancelled: Option<string>,
                       o: Outcome, input: Input, coupons: seq<Request>)
    requires Results(GateOf(granting, sceneOf, d, c), calls, cancelled, o)
    requires o.success ==> HasReview(coupons, c.storeId, c.reviewId)
    ensures Backed(StoreRequest(input, DecisionWithCouponGrant(d, o), c, o), coupons)
  {
    GrantedAction(granting, sceneOf, d, c, calls, cancelled, o);
    hide Results, GateOf, DecisionWithCouponGrant, EqualFold, HasReview, ReasonWithCouponGrant;
  }

  lemma GrantedAction(granting: bool, sceneOf: string -> string, d: Decision, c: Context, calls: seq<Response>, cancelled: Option<string>, o: Outcome)
    requires Results(GateOf(granting, sceneOf, d, c), calls, cancelled, o)
    ensures o.success <==> o.executionStatus == "GRANTED"
    ensures o.success ==> EqualFold(d.action, "GRANT_COUPON") && !d.needHumanReview
    ensures o.success ==> DecisionWithCouponGrant(d, o).action == d.action && DefaultIfBlank(d.action, "NO_COUPON") == d.action
  {
    hide AppendSentence, Series, MeetsConstraints, WithTag, SessionScope.GrantKey;
    if o.success { FoldedIsTrimmed(d.action); }
    hide EqualFold, Trim;
  }

  lemma FoldedIsTrimmed(action: string)
    requires EqualFold(action, "GRANT_COUPON")
    ensures Trim(action) == action && action != ""
  {
    var g := "GRANT_COUPON";
    assert |action| == |ToLower(action)| == |ToLower(g)| == 12;
    assert Lower(action[0]) == ToLower(action)[0] == ToLower(g)[0] == 'g';
    assert Lower(action[11]) == ToLower(action)[11] == ToLower(g)[11] == 'n';
    TrimFacts(action);
  }

  /** The conditions of a grant, in terms of what the model said, what the tools found and what the caller supplied. */
  ghost predicate GrantIsClear(granting: bool, sceneOf: string -> string, input: Input) {
    var d, c := input.decision, FullContext(input);
    && granting
    && (EqualFold(d.action, "GRANT_COUPON") || EqualFold(d.action, "SUGGEST_COUPON")) && !d.needHumanReview
    && !Appealed(input.history) && !LowRatedQuality(input.history)
    && LastCampaign(input.history).Some? && Open(LastCampaign(input.history).value)
    && c.activityId != "" && c.storeId > 0 && c.userId > 0 && (c.skuId > 0 || c.spuId > 0)
    && sceneOf(d.scene) != ""
  }

  /** The coupon service is asked exactly when the grant is clear, and then under the key of this review. */
  lemma AskedExactlyWhenClear(granting: bool, suggest: string -> string, sceneOf: string -> string, input: Input)
    ensures var c := FullContext(input); var gate := GateOf(granting, sceneOf, Guarded(suggest, input.decision, FactsOf(input.history)), c);
      && (gate.Ask? <==> GrantIsClear(granting, sceneOf, input))
      && (gate.Ask? ==> Keyed(gate.req) && Fills(gate.req, c, sceneOf(input.decision.scene)))
  {
    ConstraintsComeFromTheLastCampaign(input.history);
    ForcedByHistory(input.history);
    FoldFacts();
    GateDecides(granting, sceneOf, Guarded(suggest, input.decision, FactsOf(input.history)), FullContext(input));
    hide Appealed, LowRatedQuality, Fills, Declines;
    hide FactsOf, ContextOf, LastCampaign, Open, QualitySignal, ToLower, DefaultIfBlank, OrderNo, SessionScope.GrantKey, GuardReason, WithTag, Trim;
    assert MeetsConstraints(FullContext(input)) <==> MeetsConstraints(ContextOf(input.history));
    hide MeetsConstraints;
  }

  /** The stored decision says what was done. */
  ghost predicate Truthful(granting: bool, suggest: string -> string, sceneOf: string -> string, input: Input, t: Trace) {
    var p := t.request;
    && (t.calls != [] <==> GrantIsClear(granting, sceneOf, input))
    && (p.couponGranted <==> t.calls != [] && var last := t.calls[|t.calls| - 1]; last.Answered? && last.reply.success)
    && (p.executionStatus == "GRANTED" <==> p.couponGranted)
    && (p.executionStatus == "GRANT_FAILED" <==> t.calls != [] && t.calls[|t.calls| - 1].Failed?)
    && (p.executionStatus == "MANUAL_REVIEW" <==> Guarded(suggest, input.decision, FactsOf(input.history)).needHumanReview)
    && (p.executionStatus == "PROPOSED" <==> Wanted(Guarded(suggest, input.decision, FactsOf(input.history))) && !granting)
    && p.executionStatus in ["GRANTED", "GRANT_FAILED", "MANUAL_REVIEW", "PROPOSED", "REJECTED"]
    && t.outcome.attempts == |t.calls| <= 3
    && forall i | 0 <= i < |t.calls| - 1 :: t.calls[i].Failed? && Retryable(t.calls[i].error)
  }

  lemma StoredStatus(storing: bool, locking: bool, granting: bool, suggest: string -> string, sceneOf: string -> string,
                     input: Input, decision: Decision, step: Option<Step>, trace: Option<Trace>)
    ensures Finalized(storing, locking, granting, suggest, sceneOf, input, decision, step, trace) && trace.Some? ==>
      Truthful(granting, suggest, sceneOf, input, trace.value)
  {
    AskedExactlyWhenClear(granting, suggest, sceneOf, input);
    hide GrantIsClear, Guarded, FullContext, FactsOf, DecisionWithCouponGrant, ReasonWithCouponGrant, DefaultIfBlank, Retryable, EqualFold;
    hide MeetsConstraints, SessionScope.GrantKey, SessionScope.ReviewKey, OrderNo;
  }

  /** What is answered announces the outcome, and what is stored says it in full, about the review that the tools reported. */
  lemma StoredSaysAll(storing: bool, locking: bool, granting: bool, suggest: string -> string, sceneOf: string -> string,
                      input: Input, decision: Decision, step: Option<Step>, trace: Option<Trace>)
    ensures Finalized(storing, locking, granting, suggest, sceneOf, input, decision, step, trace) && trace.Some? ==>
      && (exists d :: Overruled(suggest, input.decision, input.history, d) && Announces(d, trace.value.outcome, decision))
      && (exists c :: Completes(input, c) && Files(trace.value.request, input, decision, c, trace.value.outcome))
  {
    if Finalized(storing, locking, granting, suggest, sceneOf, input, decision, step, trace) && trace.Some? {
      var d, c, t := Guarded(suggest, input.decision, FactsOf(input.history)), FullContext(input), trace.value;
      hide Results, GateOf, Overruled, Announces, Completes, Files, Guarded, FactsOf, FullContext, StoreRequest, DecisionWithCouponGrant;
      GuardOverrules(suggest, input.decision, input.history);
      OutcomeIsAnnounced(d, t.outcome);
      ContextIsComplete(input);
      StoredInFull(input, decision, c, t.outcome);
    }
  }

  /** NO_COUPON exactly after an attempt that was turned down. */
  ghost predicate ActionFollows(t: Trace) {
    && (EqualFold(t.request.action, "GRANT_COUPON") <==> t.calls == [] || t.request.executionStatus != "REJECTED")
    && (!EqualFold(t.request.action, "GRANT_COUPON") ==> t.request.action == "NO_COUPON")
  }

  /**
    The stored action follows the guarded one. An attempt that the service turns down makes it NO_COUPON; one that was
    never made leaves GRANT_COUPON standing even when the status is REJECTED.
   */
  lemma StoredAction(storing: bool, locking: bool, granting: bool, suggest: string -> string, sceneOf: string -> string,
                     input: Input, decision: Decision, step: Option<Step>, trace: Option<Trace>)
    requires EqualFold(Guarded(suggest, input.decision, FactsOf(input.history)).action, "GRANT_COUPON")
    ensures Finalized(storing, locking, granting, suggest, sceneOf, input, decision, step, trace) && trace.Some? ==> ActionFollows(trace.value)
  {
    var d := Guarded(suggest, input.decision, FactsOf(input.history));
    FoldedIsTrimmed(d.action);
    NoCouponIsNoGrant();
    hide Guarded, FullContext, FactsOf, GateOf, Series, AppendSentence, ReasonWithCouponGrant, Retryable, EqualFold, WithTag, Trim;
    hide SessionScope.ReviewKey;
  }

  lemma NoCouponIsNoGrant()
    ensures !EqualFold("NO_COUPON", "GRANT_COUPON") && Trim("NO_COUPON") == "NO_COUPON"
  {
    assert |ToLower("NO_COUPON")| == 9 && |ToLower("GRANT_COUPON")| == 12;
    TrimFacts("NO_COUPON");
  }

  /** The action of a granted coupon is spelt as the documents have it only when the model spelt it so, or suggested it. */
  lemma GrantedSpelling(storing: bool, locking: bool, granting: bool, suggest: string -> string, sceneOf: string -> string,
                        input: Input, decision: Decision, step: Option<Step>, trace: Option<Trace>)
    ensures Finalized(storing, locking, granting, suggest, sceneOf, input, decision, step, trace) && trace.Some? && trace.value.request.couponGranted ==>
      && EqualFold(trace.value.request.action, "GRANT_COUPON")
      && (trace.value.request.action == "GRANT_COUPON" <==>
            input.decision.action == "GRANT_COUPON" || EqualFold(input.decision.action, "SUGGEST_COUPON"))
  {
    if Finalized(storing, locking, granting, suggest, sceneOf, input, decision, step, trace) && trace.Some? && trace.value.request.couponGranted {
      var d, c, t := Guarded(suggest, input.decision, FactsOf(input.history)), FullContext(input), trace.value;
      GrantedAction(granting, sceneOf, d, c, t.calls, t.cancelled, t.outcome);
      FoldFacts();
      assert t.request.action == d.action by { hide Guarded, Results, GateOf; }
      hide Results, GateOf, DecisionWithCouponGrant, StoreRequest, FullContext, FactsOf, EqualFold, QualitySignal, GuardReason, WithTag, Trim;
    }
  }

  // ---- Inputs that show the two differences --------------------------------------------------

  const REVIEW := Evidence(1, 1, 1, 1, 1, 1, 5, "", false, false, false, 1)
  const CAMPAIGN := Campaign("a", "p", "t", "ACTIVE", true, true, 1, 1, 0, 0)

  function Wish(action: string): Decision {
    Decision("final", "", "", "", action, "s", "", "", "", 1.0, "", [], false)
  }

  lemma CampaignFollows(before: seq<Finding>, k: Campaign)
    ensures var h := before + [Finding("get_campaign_context", Object(None, [], Some(k)))];
      FactsOf(h) == FactsOf(before) && LastCampaign(h) == Some(k) && ContextOf(h) == WithCampaign(ContextOf(before), k)
  {
    var f := Finding("get_campaign_context", Object(None, [], Some(k)));
    var h := before + [f];
    assert h[..|h| - 1] == before && h[|h| - 1] == f;
    assert |"get_campaign_context"| == 20 && |"get_review_evidence"| == 19 && |"retrieve_rag"| == 12;
    assert EvidenceIn(f).None? && ChunksIn(f) == [] && AspectsOf([]) == [];
    hide WithCampaign, WithEvidence, WithChunks;
    assert FactsOf(before).aspects + [] == FactsOf(before).aspects;
  }

  lemma ReviewAlone()
    ensures var h := [Report(REVIEW)]; FactsOf(h) == Facts(5, false, "", []) && LastCampaign(h) == None
    ensures var c := ContextOf([Report(REVIEW)]); c.reviewId == 1 && c.storeId == 1 && c.userId == 1 && c.skuId == 1 && c.activityId == ""
  {
    hide Decimal, WithId;
    assert [Report(REVIEW)][..0] == [];
  }

  lemma NoQuality(facts: Facts)
    requires facts.content == "" && facts.aspects == []
    ensures !QualitySignal(facts)
  {
    EmptyHasNoKeyword(facts.content);
  }

  lemma ExampleIsClear(sceneOf: string -> string, input: Input)
    requires sceneOf("s") != "" && input == Input("", "", Wish("grant_coupon"), [Report(REVIEW)] + [CampaignReport()], "", "")
    ensures GrantIsClear(true, sceneOf, input)
  {
    hide GrantIsClear, Appealed, LowRatedQuality, FactsOf, ContextOf, LastCampaign, Open, EqualFold, QualitySignal, Trim, WithCampaign;
    ReviewAlone();
    CampaignFollows([Report(REVIEW)], CAMPAIGN);
    NoQuality(FactsOf(input.history));
    ForcedByHistory(input.history);
    LowerCase();
    ExampleCampaign(ContextOf([Report(REVIEW)]));
    ClearBecause(true, sceneOf, input);
  }

  lemma ClearBecause(granting: bool, sceneOf: string -> string, input: Input)
    requires var d, c := input.decision, FullContext(input);
      && granting && EqualFold(d.action, "GRANT_COUPON") && !d.needHumanReview
      && !Appealed(input.history) && !LowRatedQuality(input.history)
      && LastCampaign(input.history).Some? && Open(LastCampaign(input.history).value)
      && c.activityId != "" && c.storeId > 0 && c.userId > 0 && c.skuId > 0 && sceneOf(d.scene) != ""
    ensures GrantIsClear(granting, sceneOf, input)
  {
    hide Appealed, LowRatedQuality, LastCampaign, Open, EqualFold, FullContext;
  }

  function CampaignReport(): Finding {
    Finding("get_campaign_context", Object(None, [], Some(CAMPAIGN)))
  }

  lemma ExampleCampaign(c: Context)
    requires c.activityId == ""
    ensures var d := WithCampaign(c, CAMPAIGN);
      && Open(CAMPAIGN) && DefaultIfBlank(d.activityId, "") != ""
      && d.storeId == c.storeId && d.userId == c.userId && d.skuId == c.skuId
  {
    TrimFacts("a");
    assert IsTrimmed("a") && Trim("") == "";
    assert EqualFold("ACTIVE", "ACTIVE");
    hide Trim;
  }

  /** An action in lower case is granted, and stored as it is. */
  lemma LowerCaseIsGranted(suggest: string -> string, sceneOf: string -> string) returns (input: Input, reply: Reply, o: Outcome)
    requires sceneOf("s") != ""
    ensures input.decision.action == "grant_coupon"
    ensures var d, c := Guarded(suggest, input.decision, FactsOf(input.history)), FullContext(input);
      && Results(GateOf(true, sceneOf, d, c), [Answered(reply)], None, o)
      && var p := StoreRequest(input, DecisionWithCouponGrant(d, o), c, o); p.couponGranted && p.action == "grant_coupon"
  {
    input := Input("", "", Wish("grant_coupon"), [Report(REVIEW)] + [CampaignReport()], "", "");
    reply := Reply(true, false, "", "");
    ExampleIsClear(sceneOf, input);
    o := GrantedAsSpelt(suggest, sceneOf, input, reply);
  }

  lemma GrantedAsSpelt(suggest: string -> string, sceneOf: string -> string, input: Input, reply: Reply) returns (o: Outcome)
    requires GrantIsClear(true, sceneOf, input) && input.decision.action == "grant_coupon" && reply.success
    ensures var d, c := Guarded(suggest, input.decision, FactsOf(input.history)), FullContext(input);
      && Results(GateOf(true, sceneOf, d, c), [Answered(reply)], None, o)
      && var p := StoreRequest(input, DecisionWithCouponGrant(d, o), c, o); p.couponGranted && p.action == "grant_coupon"
  {
    var d, c := Guarded(suggest, input.decision, FactsOf(input.history)), FullContext(input);
    hide GateOf, FullContext, FactsOf, GrantIsClear, ReasonWithCouponGrant, AppendSentence, Trim, WithTag, EqualFold, Fills, Keyed;
    AskedExactlyWhenClear(true, suggest, sceneOf, input);
    LowerCase();
    ClearIsUnforced(true, sceneOf, input);
    assert d.action == "grant_coupon";
    hide Guarded;
    var req := GateOf(true, sceneOf, d, c).req;
    o := Outcome(true, true, reply.duplicated, 1, false, reply.couponId, reply.message, "", req.scene, req.idempotencyKey, "GRANTED");
  }

  lemma ClearIsUnforced(granting: bool, sceneOf: string -> string, input: Input)
    requires GrantIsClear(granting, sceneOf, input)
    ensures !Forced(FactsOf(input.history))
  {
    hide Appealed, LowRatedQuality, LowQuality, FactsOf, LastCampaign, Open, EqualFold, FullContext;
    ForcedByHistory(input.history);
  }

  lemma LowerCase()
    ensures EqualFold("grant_coupon", "GRANT_COUPON") && !EqualFold("grant_coupon", "SUGGEST_COUPON") && Trim("grant_coupon") == "grant_coupon"
  {
    assert |ToLower("grant_coupon")| == 12 && |ToLower("SUGGEST_COUPON")| == 14;
    assert ToLower("grant_coupon") == ToLower("GRANT_COUPON");
    TrimFacts("grant_coupon");
  }

  /** A grant that was never attempted, for want of a campaign, is stored as REJECTED and as GRANT_COUPON. */
  lemma RejectedStandsAsGrant(suggest: string -> string, sceneOf: string -> string) returns (input: Input, o: Outcome)
    ensures var d, c := Guarded(suggest, input.decision, FactsOf(input.history)), FullContext(input);
      && Results(GateOf(true, sceneOf, d, c), [], None, o)
      && var p := StoreRequest(input, DecisionWithCouponGrant(d, o), c, o); p.executionStatus == "REJECTED" && p.action == "GRANT_COUPON"
  {
    input := Input("", "", Wish("GRANT_COUPON"), [Report(REVIEW)], "", "");
    ReviewAlone();
    NoQuality(FactsOf(input.history));
    FoldFacts();
    FoldedIsTrimmed("GRANT_COUPON");
    var d, c := Guarded(suggest, input.decision, FactsOf(input.history)), FullContext(input);
    assert Trim("") == "";
    assert c.activityId == "";
    assert d.action == "GRANT_COUPON" && !d.needHumanReview;
    hide FullContext, FactsOf, ContextOf, Guarded, ReasonWithCouponGrant, AppendSentence, Trim, WithTag, EqualFold;
    o := Outcome(false, false, false, 0, false, "", INCOMPLETE, "", "", "", "REJECTED");
  }

  /** Coupons are never taken back. */
  lemma StayBacked(decisions: seq<Noted<Stored>>, before: seq<Request>, after: seq<Request>)
    requires AllBacked(decisions, before) && before <= after
    ensures AllBacked(decisions, after)
  {
    forall p | p in decisions
      ensures Backed(p.what, after)
    {
      if p.what.couponGranted {
        var c :| c in before && c.storeId == p.what.storeId && c.reviewId == p.what.reviewId;
        assert c in after;
      }
    }
  }
}
