/** The coupon service as a ledger that honours idempotency keys, and the retries against it. */
module Grants {
  import opened Journal
  import opened Options
  import opened Text
  import SessionScope

  datatype Request = Request(
    storeId: int, userId: int, reviewId: int, orderNo: string, productId: int, rating: int, hasImage: bool, isFirstReview: bool,
    scene: string, activityId: string, policyVersion: string, evidenceVersion: int, couponTemplateId: string, idempotencyKey: string)

  datatype Reply = Reply(success: bool, duplicated: bool, couponId: string, message: string)

  /** A failed call says nothing about whether a coupon was issued. */
  datatype Response = Answered(reply: Reply) | Failed(error: string)

  // ---- The ledger ----------------------------------------------------------------------------

  ghost predicate HasKey(coupons: seq<Request>, key: string) {
    exists c | c in coupons :: c.idempotencyKey == key
  }

  predicate HasReview(coupons: seq<Request>, storeId: int, reviewId: int) {
    exists c | c in coupons :: c.storeId == storeId && c.reviewId == reviewId
  }

  /** Every issued coupon carries the key of its store and review, and no key was used twice. */
  ghost predicate Sound(coupons: seq<Request>) {
    && (forall c | c in coupons :: Keyed(c))
    && forall i, j | 0 <= i < j < |coupons| :: coupons[i].idempotencyKey != coupons[j].idempotencyKey
  }

  predicate Keyed(c: Request) {
    c.idempotencyKey == SessionScope.GrantKey(c.reviewId, c.storeId)
  }

  /** What honouring the key means for one call. */
  ghost predicate Answers(before: seq<Request>, req: Request, resp: Response, after: seq<Request>) {
    && (after == before || (!HasKey(before, req.idempotencyKey) && after == before + [req]))
    && (resp.Answered? && resp.reply.success ==> HasKey(after, req.idempotencyKey))
    && (resp.Answered? && !resp.reply.success ==> after == before)
  }

  datatype Exchange = Exchange(req: Request, resp: Response)

  class GrantLedger {
    /** The requests that got a coupon, in order. */
    var coupons: seq<Request>
    /** Every call, with what was answered or took its place. */
    var exchanges: seq<Noted<Exchange>>

    constructor ()
      ensures coupons == [] && exchanges == []
    {
      coupons, exchanges := [], [];
    }

    method GrantCouponByReview(req: Request, who: nat) returns (resp: Response)
      modifies this
      ensures Answers(old(coupons), req, resp, coupons)
      ensures exchanges == old(exchanges) + [Noted(who, Exchange(req, resp))]
    {
      var used := exists i | 0 <= i < |coupons| :: coupons[i].idempotencyKey == req.idempotencyKey;
      var reached: bool, willing: bool, answered: bool := *, *, *;
      var couponId: string, text: string := *, *;
      if !reached || (!used && !willing) {
        resp := if reached && answered then Answered(Reply(false, false, "", text)) else Failed(text);
        exchanges := exchanges + [Noted(who, Exchange(req, resp))];
        return;
      }
      if !used {
        coupons := coupons + [req];
      }
      assert HasKey(coupons, req.idempotencyKey) by {
        if !used { assert req in coupons; }
      }
      resp := if answered then Answered(Reply(true, used, couponId, text)) else Failed(text);
      exchanges := exchanges + [Noted(who, Exchange(req, resp))];
    }

    /** Any calls of anyone but `me`. */
    method Others(requests: seq<Request>, me: nat)
      requires Sound(coupons) && forall r | r in requests :: Keyed(r)
      modifies this
      ensures Sound(coupons) && old(coupons) <= coupons && Own(exchanges, me) == Own(old(exchanges), me)
    {
      for i := 0 to |requests|
        invariant Sound(coupons) && old(coupons) <= coupons && Own(exchanges, me) == Own(old(exchanges), me)
      {
        ghost var before, log := coupons, exchanges;
        var resp := GrantCouponByReview(requests[i], me + 1);
        AnswerKeepsSound(before, requests[i], resp, coupons);
        OwnFurther(log, Noted(me + 1, Exchange(requests[i], resp)), me);
      }
    }
  }

  lemma AnswerKeepsSound(before: seq<Request>, req: Request, resp: Response, after: seq<Request>)
    requires Sound(before) && Keyed(req) && Answers(before, req, resp, after)
    ensures Sound(after) && before <= after
  {
    if after != before {
      forall i, j | 0 <= i < j < |after|
        ensures after[i].idempotencyKey != after[j].idempotencyKey
      {
        if j == |before| { assert before[i] in before; }
      }
    }
  }

  /** At most one coupon is ever issued for a review of a store. */
  lemma OneCouponPerReview(coupons: seq<Request>, i: nat, j: nat)
    requires Sound(coupons) && i < j < |coupons|
    ensures (coupons[i].storeId, coupons[i].reviewId) != (coupons[j].storeId, coupons[j].reviewId)
  {
    assert coupons[i] in coupons && coupons[j] in coupons;
  }

  /** A key in the ledger stands for this review's coupon and no other's. */
  lemma KeyMeansReview(coupons: seq<Request>, storeId: int, reviewId: int)
    requires Sound(coupons)
    ensures HasKey(coupons, SessionScope.GrantKey(reviewId, storeId)) <==> HasReview(coupons, storeId, reviewId)
  {
    hide SessionScope.ReviewKey;
    if HasKey(coupons, SessionScope.GrantKey(reviewId, storeId)) {
      var c :| c in coupons && c.idempotencyKey == SessionScope.GrantKey(reviewId, storeId);
      assert Keyed(c);
      SessionScope.ReviewKeyInjective("review:", c.storeId, c.reviewId, storeId, reviewId);
    }
  }

  // ---- Retrying ------------------------------------------------------------------------------

  const MARKERS := ["timeout", "deadline", "connection refused", "connection reset", "temporary", "eof",
                    "status 500", "status 502", "status 503", "status 504"]

  ghost predicate Retryable(error: string) {
    exists m | m in MARKERS :: Contains(ToLower(error), m)
  }

  method IsRetryableCouponGrantError(error: string) returns (retryable: bool)
    ensures retryable <==> Retryable(error)
  {
    var msg := ToLower(error);
    for i := 0 to |MARKERS|
      invariant forall j | 0 <= j < i :: !Contains(msg, MARKERS[j])
    {
      if Contains(msg, MARKERS[i]) {
        return true;
      }
    }
    return false;
  }

  function Asked(req: Request, calls: seq<Response>): (xs: seq<Exchange>)
    ensures |xs| == |calls| && forall i | 0 <= i < |calls| :: xs[i] == Exchange(req, calls[i])
  {
    seq(|calls|, i requires 0 <= i < |calls| => Exchange(req, calls[i]))
  }

  /** The responses of one series of attempts: all but the last failed in a way that is worth another try. */
  ghost predicate Series(calls: seq<Response>) {
    && 1 <= |calls| <= 3
    && forall i | 0 <= i < |calls| - 1 :: calls[i].Failed? && Retryable(calls[i].error)
  }

  /** What a series returns; `cancelled` is the context's own error, should it end during a pause. */
  ghost predicate Concludes(calls: seq<Response>, cancelled: Option<string>, reply: Option<Reply>, error: string) {
    Series(calls) &&
    match calls[|calls| - 1]
    case Answered(r) => reply == Some(r)
    case Failed(e) =>
      && reply == None
      && (cancelled.None? ==> error == e && (|calls| == 3 || !Retryable(e)))
      && (cancelled.Some? ==> error == cancelled.value && |calls| < 3 && Retryable(e))
  }

  /** The ledger sees exactly the calls of the series from this caller, whatever others send meanwhile. */
  method GrantCouponWithRetry(ledger: GrantLedger, req: Request, me: nat)
      returns (reply: Option<Reply>, attempts: nat, error: string, ghost calls: seq<Response>, ghost cancelled: Option<string>)
    requires Sound(ledger.coupons) && Keyed(req)
    modifies ledger
    ensures Sound(ledger.coupons) && old(ledger.coupons) <= ledger.coupons
    ensures Own(ledger.exchanges, me) == Own(old(ledger.exchanges), me) + Asked(req, calls)
    ensures attempts == |calls| && Concludes(calls, cancelled, reply, error)
    ensures reply.Some? && reply.value.success ==> HasReview(ledger.coupons, req.storeId, req.reviewId)
  {
    hide Retryable, Sound, HasKey, HasReview, Keyed, Own, Asked;
    calls, cancelled, error := [], None, "";
    for attempt := 1 to 4
      invariant attempt == |calls| + 1 && cancelled == None
      invariant forall i | 0 <= i < |calls| :: calls[i].Failed? && Retryable(calls[i].error)
      invariant |calls| < 3
      invariant Sound(ledger.coupons) && old(ledger.coupons) <= ledger.coupons
      invariant Own(ledger.exchanges, me) == Own(old(ledger.exchanges), me) + Asked(req, calls)
    {
      ghost var before, log := ledger.coupons, ledger.exchanges;
      var resp := ledger.GrantCouponByReview(req, me);
      OwnFurther(log, Noted(me, Exchange(req, resp)), me);
      assert Asked(req, calls + [resp]) == Asked(req, calls) + [Exchange(req, resp)];
      calls := calls + [resp];
      AnswerKeepsSound(before, req, resp, ledger.coupons);
      if resp.Answered? {
        KeyMeansReview(ledger.coupons, req.storeId, req.reviewId);
        KeyOfRequest(req);
        return Some(resp.reply), attempt, "", calls, cancelled;
      }
      var retryable := IsRetryableCouponGrantError(resp.error);
      if !retryable || attempt == 3 {
        return None, attempt, resp.error, calls, cancelled;
      }
      var ended: Option<string> := *;
      if ended.Some? {
        return None, attempt, ended.value, calls, ended;
      }
      var others: seq<Request> := *;
      if forall r | r in others :: Keyed(r) {
        ledger.Others(others, me);
      }
    }
    assert false;
  }

  lemma KeyOfRequest(req: Request)
    requires Keyed(req)
    ensures req.idempotencyKey == SessionScope.GrantKey(req.reviewId, req.storeId)
  {
  }
}
