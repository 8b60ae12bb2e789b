/** The business context of a decision, gathered from the tool history. */
module DecisionContext {
  import opened Guard
  import opened Options
  import opened Text

  datatype Context = Context(
    reviewId: int, storeId: int, userId: int, orderId: int, skuId: int, spuId: int, score: int, content: string,
    hasMedia: bool, isFirstReview: bool, evidenceIds: seq<string>, evidenceVersion: int,
    activityId: string, policyVersion: string, couponTemplateId: string, campaignActive: bool, productEligible: bool, userEligible: bool,
    remainingStock: int, remainingBudgetCent: int, userGrantLimit: int, userGrantedCount: int)

  const NOTHING := Context(0, 0, 0, 0, 0, 0, 0, "", false, false, [], 0, "", "", "", false, false, false, 0, 0, 0, 0)

  /** firstInt64 */
  function FirstPositive(current: int, candidate: int): int {
    if current > 0 then current else if candidate > 0 then candidate else 0
  }

  function DefaultIfBlank(value: string, fallback: string): string {
    if Trim(value) != "" then Trim(value) else Trim(fallback)
  }

  function CampaignIn(f: Finding): Option<Campaign> {
    if f.toolName == "get_campaign_context" && f.output.Object? then f.output.campaign else None
  }

  function WithId(ids: seq<string>, id: string): seq<string> {
    if id in ids then ids else ids + [id]
  }

  function WithChunks(ids: seq<string>, chunks: seq<Chunk>): seq<string> {
    if chunks == [] then ids else
    var n := |chunks| - 1;
    var before := WithChunks(ids, chunks[..n]);
    if chunks[n].chunkId == "" then before else WithId(before, chunks[n].chunkId)
  }

  /** The ids keep the first positive value, the rest is what the latest record says. */
  function WithEvidence(c: Context, e: Evidence): Context {
    var reviewId := FirstPositive(c.reviewId, e.reviewId);
    c.(reviewId := reviewId, storeId := FirstPositive(c.storeId, e.storeId), userId := FirstPositive(c.userId, e.userId),
       orderId := FirstPositive(c.orderId, e.orderId), skuId := FirstPositive(c.skuId, e.skuId), spuId := FirstPositive(c.spuId, e.spuId),
       score := Int32(e.score), content := e.content, hasMedia := e.hasMedia, isFirstReview := e.isFirstReview,
       evidenceVersion := FirstPositive(c.evidenceVersion, e.evidenceVersion),
       evidenceIds := if reviewId > 0 then WithId(c.evidenceIds, "review:" + Decimal(reviewId)) else c.evidenceIds)
  }

  function WithCampaign(c: Context, k: Campaign): Context {
    c.(activityId := DefaultIfBlank(c.activityId, k.activityId), policyVersion := DefaultIfBlank(c.policyVersion, k.policyVersion),
       couponTemplateId := DefaultIfBlank(c.couponTemplateId, k.couponTemplateId), campaignActive := EqualFold(k.status, "ACTIVE"),
       productEligible := k.productEligible, userEligible := k.userEligible, remainingStock := k.remainingStock,
       remainingBudgetCent := k.remainingBudgetCent, userGrantLimit := Int32(k.userGrantLimit), userGrantedCount := Int32(k.userGrantedCount))
  }

  function Gather(c: Context, f: Finding): Context {
    match EvidenceIn(f)
    case Some(e) => WithEvidence(c, e)
    case None =>
      match CampaignIn(f)
      case Some(k) => WithCampaign(c, k)
      case None => c.(evidenceIds := WithChunks(c.evidenceIds, ChunksIn(f)))
  }

  function ContextOf(history: seq<Finding>): Context {
    if history == [] then NOTHING else Gather(ContextOf(history[..|history| - 1]), history[|history| - 1])
  }

  /** The set kept beside the list of ids. */
  ghost predicate Seen(seen: set<string>, ids: seq<string>) {
    forall id :: id in seen <==> id in ids
  }

  method CollectRAGEvidenceIds(chunks: seq<Chunk>, evidenceIds: seq<string>, seenBefore: set<string>) returns (ids: seq<string>, seen: set<string>)
    requires Seen(seenBefore, evidenceIds)
    ensures ids == WithChunks(evidenceIds, chunks) && Seen(seen, ids)
  {
    ids, seen := evidenceIds, seenBefore;
    for i := 0 to |chunks|
      invariant ids == WithChunks(evidenceIds, chunks[..i]) && Seen(seen, ids)
    {
      assert chunks[..i + 1][..i] == chunks[..i];
      var id := chunks[i].chunkId;
      if id != "" && id !in seen {
        ids, seen := ids + [id], seen + {id};
      }
    }
    assert chunks[..|chunks|] == chunks;
  }

  method ExtractDecisionContext(history: seq<Finding>) returns (dc: Context)
    ensures dc == ContextOf(history) && ContextTells(history, dc)
  {
    hide ContextTells, WithEvidence, WithChunks, EqualFold, Trim, Int32;
    dc := NOTHING;
    var seen: set<string> := {};
    for i := 0 to |history|
      invariant dc == ContextOf(history[..i]) && Seen(seen, dc.evidenceIds)
    {
      assert history[..i + 1][..i] == history[..i];
      var item := history[i];
      if item.output.Object? {
        if item.toolName == "get_review_evidence" {
          if item.output.evidence.Some? {
            dc, seen := TakeEvidence(dc, item.output.evidence.value, seen);
          }
        } else if item.toolName == "retrieve_rag" {
          var ids, all := CollectRAGEvidenceIds(item.output.chunks, dc.evidenceIds, seen);
          dc, seen := dc.(evidenceIds := ids), all;
        } else if item.toolName == "get_campaign_context" {
          if item.output.campaign.Some? {
            dc := WithCampaign(dc, item.output.campaign.value);
          } else {
            NoChunks(dc.evidenceIds);
          }
        }
      }
      if ChunksIn(item) == [] { NoChunks(dc.evidenceIds); }
    }
    assert history[..|history|] == history;
    ContextIsTold(history);
  }

  lemma NoChunks(ids: seq<string>)
    ensures WithChunks(ids, []) == ids
  {
  }

  method TakeEvidence(dc: Context, ev: Evidence, seenBefore: set<string>) returns (next: Context, seen: set<string>)
    requires Seen(seenBefore, dc.evidenceIds)
    ensures next == WithEvidence(dc, ev) && Seen(seen, next.evidenceIds)
  {
    hide Decimal;
    next, seen := dc, seenBefore;
    next := next.(reviewId := FirstPositive(dc.reviewId, ev.reviewId), storeId := FirstPositive(dc.storeId, ev.storeId));
    next := next.(userId := FirstPositive(dc.userId, ev.userId), orderId := FirstPositive(dc.orderId, ev.orderId));
    next := next.(skuId := FirstPositive(dc.skuId, ev.skuId), spuId := FirstPositive(dc.spuId, ev.spuId));
    next := next.(score := Int32(ev.score), content := ev.content, hasMedia := ev.hasMedia, isFirstReview := ev.isFirstReview);
    next := next.(evidenceVersion := FirstPositive(dc.evidenceVersion, ev.evidenceVersion));
    var id := "review:" + Decimal(next.reviewId);
    if next.reviewId > 0 && id !in seen {
      next := next.(evidenceIds := next.evidenceIds + [id]);
      seen := seen + {id};
    }
  }

  // ---- What the context says about the history -----------------------------------------------

  datatype Id = ReviewId | StoreId | UserId | OrderId | SkuId | SpuId | EvidenceVersion

  function IdIn(e: Evidence, id: Id): int {
    match id
    case ReviewId => e.reviewId
    case StoreId => e.storeId
    case UserId => e.userId
    case OrderId => e.orderId
    case SkuId => e.skuId
    case SpuId => e.spuId
    case EvidenceVersion => e.evidenceVersion
  }

  function IdOf(c: Context, id: Id): int {
    match id
    case ReviewId => c.reviewId
    case StoreId => c.storeId
    case UserId => c.userId
    case OrderId => c.orderId
    case SkuId => c.skuId
    case SpuId => c.spuId
    case EvidenceVersion => c.evidenceVersion
  }

  datatype Label = ActivityId | PolicyVersion | CouponTemplateId

  function LabelIn(k: Campaign, tag: Label): string {
    match tag
    case ActivityId => k.activityId
    case PolicyVersion => k.policyVersion
    case CouponTemplateId => k.couponTemplateId
  }

  function LabelOf(c: Context, tag: Label): string {
    match tag
    case ActivityId => c.activityId
    case PolicyVersion => c.policyVersion
    case CouponTemplateId => c.couponTemplateId
  }

  /** A usable answer of the campaign tool. */
  predicate IsCampaign(f: Finding) {
    f.toolName == "get_campaign_context" && f.output.Object? && f.output.campaign.Some?
  }

  /** The value in the first report in which it is positive; without one, zero. */
  ghost predicate IdGiven(history: seq<Finding>, id: Id, value: int) {
    || (value == 0 && forall i | 0 <= i < |history| && IsEvidence(history[i]) :: IdIn(history[i].output.evidence.value, id) <= 0)
    || exists i :: 0 <= i < |history| && IsEvidence(history[i]) && IdIn(history[i].output.evidence.value, id) == value > 0
         && forall j | 0 <= j < i && IsEvidence(history[j]) :: IdIn(history[j].output.evidence.value, id) <= 0
  }

  /** The text in the first campaign report in which it is not blank, trimmed; without one, nothing. */
  ghost predicate LabelGiven(history: seq<Finding>, tag: Label, value: string) {
    || (value == "" && forall i | 0 <= i < |history| && IsCampaign(history[i]) :: Trim(LabelIn(history[i].output.campaign.value, tag)) == "")
    || exists i :: 0 <= i < |history| && IsCampaign(history[i]) && Trim(LabelIn(history[i].output.campaign.value, tag)) == value != ""
         && forall j | 0 <= j < i && IsCampaign(history[j]) :: Trim(LabelIn(history[j].output.campaign.value, tag)) == ""
  }

  /** Score, text and flags are those of the last report. */
  ghost predicate LatestReview(history: seq<Finding>, c: Context) {
    || (c.score == 0 && c.content == "" && !c.hasMedia && !c.isFirstReview && forall i | 0 <= i < |history| :: !IsEvidence(history[i]))
    || exists i :: 0 <= i < |history| && IsEvidence(history[i]) && (forall j | i < j < |history| :: !IsEvidence(history[j]))
         && var e := history[i].output.evidence.value;
            c.score == Int32(e.score) && c.content == e.content && c.hasMedia == e.hasMedia && c.isFirstReview == e.isFirstReview
  }

  /** The constraints are those of the last campaign report. */
  ghost predicate LatestCampaign(history: seq<Finding>, c: Context) {
    || (!c.campaignActive && !c.productEligible && !c.userEligible
        && c.remainingStock == c.remainingBudgetCent == c.userGrantLimit == c.userGrantedCount == 0
        && forall i | 0 <= i < |history| :: !IsCampaign(history[i]))
    || exists i :: 0 <= i < |history| && IsCampaign(history[i]) && (forall j | i < j < |history| :: !IsCampaign(history[j]))
         && var k := history[i].output.campaign.value;
            && c.campaignActive == EqualFold(k.status, "ACTIVE") && c.productEligible == k.productEligible && c.userEligible == k.userEligible
            && c.remainingStock == k.remainingStock && c.remainingBudgetCent == k.remainingBudgetCent
            && c.userGrantLimit == Int32(k.userGrantLimit) && c.userGrantedCount == Int32(k.userGrantedCount)
  }

  /** Some chunk that was retrieved has this id. */
  ghost predicate ChunkFound(history: seq<Finding>, id: string) {
    && id != ""
    && exists i, k :: 0 <= i < |history| && IsRetrieval(history[i]) && 0 <= k < |history[i].output.chunks|
                      && history[i].output.chunks[k].chunkId == id
  }

  /** The evidence ids are the review's own and those of the retrieved chunks. */
  ghost predicate IdsListed(history: seq<Finding>, c: Context) {
    forall id :: id in c.evidenceIds <==> ChunkFound(history, id) || (c.reviewId > 0 && id == "review:" + Decimal(c.reviewId))
  }

  ghost predicate ContextTells(history: seq<Finding>, c: Context) {
    && (forall id :: IdGiven(history, id, IdOf(c, id))) && (forall tag :: LabelGiven(history, tag, LabelOf(c, tag)))
    && LatestReview(history, c) && LatestCampaign(history, c) && IdsListed(history, c)
  }

  lemma IdFurther(before: seq<Finding>, f: Finding, id: Id, value: int)
    requires IdGiven(before, id, value)
    ensures IdGiven(before + [f], id, if IsEvidence(f) then FirstPositive(value, IdIn(f.output.evidence.value, id)) else value)
  {
    hide IdIn;
    var all := before + [f];
    assert all[|before|] == f && forall i | 0 <= i < |before| :: all[i] == before[i];
    if value > 0 {
      var i :| 0 <= i < |before| && IsEvidence(before[i]) && IdIn(before[i].output.evidence.value, id) == value
        && forall j | 0 <= j < i && IsEvidence(before[j]) :: IdIn(before[j].output.evidence.value, id) <= 0;
      assert IsEvidence(all[i]) && IdIn(all[i].output.evidence.value, id) == value;
    }
  }

  lemma LabelFurther(before: seq<Finding>, f: Finding, tag: Label, value: string)
    requires LabelGiven(before, tag, value)
    ensures LabelGiven(before + [f], tag, if IsCampaign(f) then DefaultIfBlank(value, LabelIn(f.output.campaign.value, tag)) else value)
  {
    hide LabelIn;
    var all := before + [f];
    assert all[|before|] == f && forall i | 0 <= i < |before| :: all[i] == before[i];
    if value != "" {
      var i :| 0 <= i < |before| && IsCampaign(before[i]) && Trim(LabelIn(before[i].output.campaign.value, tag)) == value
        && forall j | 0 <= j < i && IsCampaign(before[j]) :: Trim(LabelIn(before[j].output.campaign.value, tag)) == "";
      assert IsCampaign(all[i]) && Trim(LabelIn(all[i].output.campaign.value, tag)) == value;
      TrimFacts(LabelIn(before[i].output.campaign.value, tag));
      TrimFacts(value);
    } else {
      assert Trim("") == "";
    }
    hide Trim;
  }

  /** A report makes itself the last; anything else leaves the last where it is. */
  lemma ReviewFurther(before: seq<Finding>, f: Finding, c: Context, c': Context)
    requires LatestReview(before, c)
    requires var e := if IsEvidence(f) then f.output.evidence.value else Evidence(0, 0, 0, 0, 0, 0, 0, "", false, false, false, 0);
      (c'.score, c'.content, c'.hasMedia, c'.isFirstReview)
      == if IsEvidence(f) then (Int32(e.score), e.content, e.hasMedia, e.isFirstReview) else (c.score, c.content, c.hasMedia, c.isFirstReview)
    ensures LatestReview(before + [f], c')
  {
    hide Int32;
    var all := before + [f];
    assert all[|before|] == f && forall i | 0 <= i < |before| :: all[i] == before[i];
    if IsEvidence(f) {
      assert IsEvidence(all[|before|]);
    } else if i :| 0 <= i < |before| && IsEvidence(before[i]) && forall j | i < j < |before| :: !IsEvidence(before[j]) {
      assert IsEvidence(all[i]) && forall j | i < j < |all| :: !IsEvidence(all[j]);
    }
  }

  lemma CampaignFurther(before: seq<Finding>, f: Finding, c: Context, c': Context)
    requires LatestCampaign(before, c)
    requires IsCampaign(f) ==> var k := f.output.campaign.value;
      && c'.campaignActive == EqualFold(k.status, "ACTIVE") && c'.productEligible == k.productEligible && c'.userEligible == k.userEligible
      && c'.remainingStock == k.remainingStock && c'.remainingBudgetCent == k.remainingBudgetCent
      && c'.userGrantLimit == Int32(k.userGrantLimit) && c'.userGrantedCount == Int32(k.userGrantedCount)
    requires !IsCampaign(f) ==>
      && c'.campaignActive == c.campaignActive && c'.productEligible == c.productEligible && c'.userEligible == c.userEligible
      && c'.remainingStock == c.remainingStock && c'.remainingBudgetCent == c.remainingBudgetCent
      && c'.userGrantLimit == c.userGrantLimit && c'.userGrantedCount == c.userGrantedCount
    ensures LatestCampaign(before + [f], c')
  {
    hide Int32, EqualFold;
    var all := before + [f];
    assert all[|before|] == f && forall i | 0 <= i < |before| :: all[i] == before[i];
    if IsCampaign(f) {
      assert IsCampaign(all[|before|]);
    } else if i :| 0 <= i < |before| && IsCampaign(before[i]) && forall j | i < j < |before| :: !IsCampaign(before[j]) {
      assert IsCampaign(all[i]) && forall j | i < j < |all| :: !IsCampaign(all[j]);
    }
  }

  lemma {:induction false} ChunksListed(ids: seq<string>, chunks: seq<Chunk>, id: string)
    ensures id in WithChunks(ids, chunks) <==> id in ids || (id != "" && exists k :: 0 <= k < |chunks| && chunks[k].chunkId == id)
  {
    if chunks != [] {
      var n := |chunks| - 1;
      ChunksListed(ids, chunks[..n], id);
      if k :| 0 <= k < n && chunks[k].chunkId == id { assert chunks[..n][k].chunkId == id; }
    }
  }

  lemma ChunkFurther(before: seq<Finding>, f: Finding, ids: seq<string>, id: string)
    ensures ChunkFound(before + [f], id) <==> ChunkFound(before, id) || (IsRetrieval(f) && id in WithChunks([], f.output.chunks))
    ensures IsRetrieval(f) ==> (id in WithChunks(ids, f.output.chunks) <==> id in ids || id in WithChunks([], f.output.chunks))
  {
    var all := before + [f];
    assert all[|before|] == f && forall i | 0 <= i < |before| :: all[i] == before[i];
    if f.output.Object? {
      ChunksListed(ids, f.output.chunks, id);
      ChunksListed([], f.output.chunks, id);
    }
    hide WithChunks;
    if ChunkFound(before, id) {
      var i, k :| 0 <= i < |before| && IsRetrieval(before[i]) && 0 <= k < |before[i].output.chunks| && before[i].output.chunks[k].chunkId == id;
      assert IsRetrieval(all[i]) && all[i].output.chunks[k].chunkId == id;
    }
    if IsRetrieval(f) && id != "" {
      if k :| 0 <= k < |f.output.chunks| && f.output.chunks[k].chunkId == id {
        assert IsRetrieval(all[|before|]) && all[|before|].output.chunks[k].chunkId == id;
      }
    }
  }

  lemma ReportsByTool(f: Finding)
    ensures EvidenceIn(f) == if IsEvidence(f) then f.output.evidence else None
    ensures CampaignIn(f) == if IsCampaign(f) then f.output.campaign else None
    ensures ChunksIn(f) == if IsRetrieval(f) then f.output.chunks else []
    ensures (IsEvidence(f) ==> !IsCampaign(f) && !IsRetrieval(f)) && (IsCampaign(f) ==> !IsRetrieval(f))
  {
    assert |"get_review_evidence"| == 19 && |"retrieve_rag"| == 12 && |"get_campaign_context"| == 20;
  }

  lemma IdsFurther(before: seq<Finding>, f: Finding, c: Context)
    requires IdsListed(before, c)
    ensures IdsListed(before + [f], Gather(c, f))
  {
    ReportsByTool(f);
    var c' := Gather(c, f);
    assert WithChunks(c.evidenceIds, []) == c.evidenceIds;
    hide ChunkFound, WithChunks, Decimal, Trim, EqualFold, Int32, IsEvidence, IsCampaign, IsRetrieval;
    forall id
      ensures id in c'.evidenceIds <==> ChunkFound(before + [f], id) || (c'.reviewId > 0 && id == "review:" + Decimal(c'.reviewId))
    {
      ChunkFurther(before, f, c.evidenceIds, id);
    }
  }

  lemma IdsGather(before: seq<Finding>, f: Finding, c: Context)
    requires forall id :: IdGiven(before, id, IdOf(c, id))
    ensures forall id :: IdGiven(before + [f], id, IdOf(Gather(c, f), id))
  {
    ReportsByTool(f);
    hide IdGiven, WithChunks, Decimal, Trim, EqualFold, Int32, FirstPositive, WithId;
    forall id
      ensures IdGiven(before + [f], id, IdOf(Gather(c, f), id))
    {
      IdFurther(before, f, id, IdOf(c, id));
    }
  }

  lemma LabelsGather(before: seq<Finding>, f: Finding, c: Context)
    requires forall tag :: LabelGiven(before, tag, LabelOf(c, tag))
    ensures forall tag :: LabelGiven(before + [f], tag, LabelOf(Gather(c, f), tag))
  {
    ReportsByTool(f);
    hide LabelGiven, WithChunks, Decimal, Trim, EqualFold, Int32, FirstPositive, DefaultIfBlank, WithId;
    forall tag
      ensures LabelGiven(before + [f], tag, LabelOf(Gather(c, f), tag))
    {
      LabelFurther(before, f, tag, LabelOf(c, tag));
    }
  }

  lemma LatestGather(before: seq<Finding>, f: Finding, c: Context)
    requires LatestReview(before, c) && LatestCampaign(before, c)
    ensures LatestReview(before + [f], Gather(c, f)) && LatestCampaign(before + [f], Gather(c, f))
  {
    ReportsByTool(f);
    hide LatestReview, LatestCampaign, WithChunks, Decimal, Trim, EqualFold, Int32, FirstPositive, DefaultIfBlank, WithId;
    ReviewFurther(before, f, c, Gather(c, f));
    CampaignFurther(before, f, c, Gather(c, f));
  }

  lemma NothingIsTold()
    ensures ContextTells([], NOTHING)
  {
    assert IdsListed([], NOTHING);
  }

  /**
    Each id and the evidence version is that very field of the first report in which it is positive, each label that of the
    first campaign report in which it is not blank; everything else is what the last report says.
   */
  lemma {:induction false} ContextIsTold(history: seq<Finding>)
    ensures ContextTells(history, ContextOf(history))
  {
    hide Gather, IdGiven, LabelGiven, LatestReview, LatestCampaign, ChunkFound, Decimal;
    if history == [] {
      NothingIsTold();
    } else {
      var before, f := history[..|history| - 1], history[|history| - 1];
      assert history == before + [f];
      ContextIsTold(before);
      var c := ContextOf(before);
      assert IdsListed(before, c);
      IdsGather(before, f, c);
      LabelsGather(before, f, c);
      LatestGather(before, f, c);
      IdsFurther(before, f, c);
      assert IdsListed(history, ContextOf(history));
    }
  }

  function LastCampaign(history: seq<Finding>): Option<Campaign> {
    if history == [] then None
    else if CampaignIn(history[|history| - 1]).Some? then CampaignIn(history[|history| - 1])
    else LastCampaign(history[..|history| - 1])
  }

  /** The live constraints of a campaign, as its latest report states them. */
  predicate Open(k: Campaign) {
    && EqualFold(k.status, "ACTIVE") && k.productEligible && k.userEligible
    && k.remainingStock > 0 && k.remainingBudgetCent > 0
    && (Int32(k.userGrantLimit) > 0 ==> Int32(k.userGrantedCount) < Int32(k.userGrantLimit))
  }

  predicate MeetsConstraints(c: Context) {
    && c.campaignActive && c.productEligible && c.userEligible && c.remainingStock > 0 && c.remainingBudgetCent > 0
    && !(c.userGrantLimit > 0 && c.userGrantedCount >= c.userGrantLimit)
  }

  /** The constraints hold exactly when the last campaign report is open; without a report they never do. */
  lemma {:induction false} ConstraintsComeFromTheLastCampaign(history: seq<Finding>)
    ensures MeetsConstraints(ContextOf(history)) <==> LastCampaign(history).Some? && Open(LastCampaign(history).value)
  {
    hide Trim, Decimal, EqualFold, Int32, WithChunks, WithId;
    if history != [] { ConstraintsComeFromTheLastCampaign(history[..|history| - 1]); }
  }

  ghost predicate Distinct(ids: seq<string>) {
    forall i, j | 0 <= i < j < |ids| :: ids[i] != ids[j]
  }

  lemma {:induction false} ChunksStayDistinct(ids: seq<string>, chunks: seq<Chunk>)
    requires Distinct(ids)
    ensures Distinct(WithChunks(ids, chunks)) && ids <= WithChunks(ids, chunks)
  {
    if chunks != [] { ChunksStayDistinct(ids, chunks[..|chunks| - 1]); }
  }

  lemma OneMoreId(c: Context, f: Finding)
    requires Distinct(c.evidenceIds)
    ensures c.evidenceIds <= Gather(c, f).evidenceIds
  {
    hide Trim, Decimal, EqualFold, Int32, WithChunks;
    ChunksStayDistinct(c.evidenceIds, ChunksIn(f));
  }

  /** Evidence ids stand in the order in which they came up: more findings only add to the end of the list. */
  lemma {:induction false} IdsGrow(history: seq<Finding>, more: seq<Finding>)
    ensures ContextOf(history).evidenceIds <= ContextOf(history + more).evidenceIds
    decreases |more|
  {
    hide Gather;
    if more == [] {
      assert history + more == history;
    } else {
      var n, all := |more| - 1, history + more;
      IdsGrow(history, more[..n]);
      assert all[..|all| - 1] == history + more[..n];
      IdsAreSound(history + more[..n]);
      OneMoreId(ContextOf(history + more[..n]), all[|all| - 1]);
    }
  }

  ghost predicate Reports(history: seq<Finding>, reviewId: int) {
    exists f | f in history :: EvidenceIn(f).Some? && EvidenceIn(f).value.reviewId == reviewId
  }

  /** No id is listed twice, and the review is one the evidence tool reported. */
  lemma {:induction false} IdsAreSound(history: seq<Finding>)
    ensures Distinct(ContextOf(history).evidenceIds) && ContextOf(history).reviewId >= 0
    ensures ContextOf(history).reviewId > 0 ==> Reports(history, ContextOf(history).reviewId)
  {
    hide Trim, Decimal, EqualFold, Int32, WithChunks;
    if history != [] {
      var before, f := history[..|history| - 1], history[|history| - 1];
      IdsAreSound(before);
      ChunksStayDistinct(ContextOf(before).evidenceIds, ChunksIn(f));
      if ContextOf(before).reviewId > 0 {
        var g :| g in before && EvidenceIn(g).Some? && EvidenceIn(g).value.reviewId == ContextOf(before).reviewId;
        assert g in history;
      } else if EvidenceIn(f).Some? {
        assert f in history;
      }
    }
  }

  function EvidenceCount(history: seq<Finding>): nat {
    if history == [] then 0 else EvidenceCount(history[..|history| - 1]) + (if EvidenceIn(history[|history| - 1]).Some? then 1 else 0)
  }

  /** The guard reads the first score, what is stored and sent is the last one: with one evidence report they are the same. */
  lemma {:induction false} ScoresAgree(history: seq<Finding>)
    requires EvidenceCount(history) <= 1
    ensures ContextOf(history).score == FactsOf(history).score && ContextOf(history).content == FactsOf(history).content
    ensures EvidenceCount(history) == 0 ==> FactsOf(history).score == 0 && FactsOf(history).content == ""
  {
    hide Trim, Decimal, EqualFold, Int32, WithChunks, AspectsOf, WithId;
    if history != [] { ScoresAgree(history[..|history| - 1]); }
  }

  function Report(e: Evidence): Finding {
    Finding("get_review_evidence", Object(Some(e), [], None))
  }

  /** With two they need not be: a high score passes the guard, and a low one is stored and sent. */
  lemma ScoresOfTwo(e: Evidence, e': Evidence)
    ensures var history := [Report(e), Report(e')];
      && EvidenceCount(history) == 2
      && FactsOf(history).score == (if Int32(e.score) != 0 then Int32(e.score) else Int32(e'.score))
      && ContextOf(history).score == Int32(e'.score)
  {
    hide Decimal, WithId, Int32, FirstPositive;
    var one, two := [Report(e)], [Report(e), Report(e')];
    assert one[..0] == [] && two[..1] == one;
    assert FactsOf(one).score == Int32(e.score) && EvidenceCount(one) == 1;
  }
}
