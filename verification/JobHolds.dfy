/**
  What holding a review claim and a slot is worth: as long as a run starts within the grace period
  and ends by its timeout, its leases are still its own, so runs exclude each other and fit the caps.
 */
module JobHolds {
  import opened Options
  import opened JobRecord
  import opened JobMachine
  import opened JobHistory
  import opened JobStream
  import Leases
  import Semaphore

  // ---- Review claims -------------------------------------------------------------------------

  ghost predicate KeepsReview(cfg: Config, db: Db, h: ReviewHold) {
    && h.token < db.serial && h.at <= db.clock
    && (db.clock <= h.at + ClaimTtl(cfg) ==> Leases.Holds(db.reviews, h.key, h.token, h.at + ClaimTtl(cfg)))
  }

  ghost predicate ReviewsInv(cfg: Config, s: State) {
    && Leases.Dated(s.db.reviews, s.db.clock + ClaimTtl(cfg))
    && (forall w | w in s.workers && s.workers[w].review.Some? :: KeepsReview(cfg, s.db, s.workers[w].review.value))
    && (forall v, w | v in s.workers && w in s.workers && v != w && s.workers[v].review.Some? && s.workers[w].review.Some? ::
          s.workers[v].review.value.token != s.workers[w].review.value.token)
  }

  /** Holds are only given up, and the reviews table changed by one script that frees none of those kept. */
  lemma ReviewScript(cfg: Config, s: State, s': State, op: Leases.Op<ReviewKey>)
    requires ReviewsInv(cfg, s)
    requires (s'.db.reviews, s'.db.clock) == Leases.Do(s.db.reviews, s.db.clock, ClaimTtl(cfg), op)
    requires s.db.serial <= s'.db.serial
    requires forall w | w in s'.workers && s'.workers[w].review.Some? ::
      && w in s.workers && s'.workers[w].review == s.workers[w].review
      && op != Leases.Drop(s.workers[w].review.value.key, s.workers[w].review.value.token)
    ensures ReviewsInv(cfg, s')
  {
    forall w | w in s'.workers && s'.workers[w].review.Some? ensures KeepsReview(cfg, s'.db, s'.workers[w].review.value) {
      var h := s.workers[w].review.value;
      assert KeepsReview(cfg, s.db, h);
      if s.db.clock <= h.at + ClaimTtl(cfg) {
        Leases.LeaseSurvives(s.db.reviews, s.db.clock, ClaimTtl(cfg), op, h.key, h.token, h.at + ClaimTtl(cfg));
      }
    }
  }

  lemma SameReviews(cfg: Config, s: State, s': State)
    requires ReviewsInv(cfg, s) && s'.db.reviews == s.db.reviews && s'.db.clock == s.db.clock && s.db.serial <= s'.db.serial
    requires forall w | w in s'.workers && s'.workers[w].review.Some? :: w in s.workers && s'.workers[w].review == s.workers[w].review
    ensures ReviewsInv(cfg, s')
  {
    forall w | w in s'.workers && s'.workers[w].review.Some? ensures KeepsReview(cfg, s'.db, s'.workers[w].review.value) {
      assert KeepsReview(cfg, s.db, s.workers[w].review.value);
    }
  }

  lemma ReviewTaken(cfg: Config, s: State, s': State, w: nat, reply: Reply)
    requires ReviewsInv(cfg, s) && w in s.workers && s.workers[w].phase.Fetched? && s.workers[w].review.None?
    requires s' == DoClaimReview(cfg, s, w, s.workers[w], reply)
    ensures ReviewsInv(cfg, s')
  {
    var key := ReviewOf(s.workers[w].phase.record);
    if s'.workers[w].review.Some? {
      var rest := Leave(s', w);
      ReviewScript(cfg, s, rest, Leases.Acquire(key, s.db.serial));
      forall v | v in s'.workers && s'.workers[v].review.Some? ensures KeepsReview(cfg, s'.db, s'.workers[v].review.value) {
        if v != w { assert KeepsReview(cfg, rest.db, rest.workers[v].review.value); }
      }
      forall v | v in s.workers && v != w && s.workers[v].review.Some? ensures s.workers[v].review.value.token < s.db.serial {
        assert KeepsReview(cfg, s.db, s.workers[v].review.value);
      }
    } else if s'.db.reviews == s.db.reviews {
      SameReviews(cfg, s, s');
    } else {
      ReviewScript(cfg, s, s', Leases.Acquire(key, s.db.serial));
    }
  }

  lemma ReviewsBeat(cfg: Config, s: State, s': State, w: nat, reply: Reply)
    requires ReviewsInv(cfg, s) && w in s.workers && CanBeat(s.workers[w]) && s' == DoHeartbeat(cfg, s, w, s.workers[w], reply)
    ensures ReviewsInv(cfg, s')
  {
    var me := s.workers[w];
    if me.phase.beat.ClaimRenewed? {
      ReviewBeat(cfg, s, s', w, reply);
    } else {
      hide ReviewsInv, Leases.Renew, Semaphore.Renew;
      SameReviews(cfg, s, s');
    }
  }

  /** The renewal of the review claim itself: if it was good, the lease now runs from this moment. */
  lemma ReviewBeat(cfg: Config, s: State, s': State, w: nat, reply: Reply)
    requires ReviewsInv(cfg, s) && w in s.workers && CanBeat(s.workers[w]) && s.workers[w].phase.beat.ClaimRenewed?
    requires s' == DoHeartbeat(cfg, s, w, s.workers[w], reply)
    ensures ReviewsInv(cfg, s')
  {
    var me := s.workers[w];
    var h := me.review.value;
    hide ReviewsInv, Leases.Renew;
    if reply == Dropped(false) {
      SameReviews(cfg, s, s');
    } else {
      var kept := s.(db := s'.db);
      ReviewScript(cfg, s, kept, Leases.Extend(h.key, h.token));
      if s'.workers[w].review == me.review {
        SameReviews(cfg, kept, s');
      } else {
        FreshReview(s.db, cfg, h);
        assert s'.workers == s.workers[w := s'.workers[w]] && s'.workers[w].review == Some(h.(at := s.db.clock));
        ReviewRefreshed(cfg, kept, s', w);
      }
    }
  }

  lemma FreshReview(db: Db, cfg: Config, h: ReviewHold)
    ensures var (db', ok) := RenewReview(db, cfg, h.key, h.token);
      ok ==> Leases.Holds(db'.reviews, h.key, h.token, db.clock + ClaimTtl(cfg))
  {
  }

  lemma ReviewRefreshed(cfg: Config, s: State, s': State, w: nat)
    requires ReviewsInv(cfg, s) && w in s.workers && s.workers[w].review.Some?
    requires s'.db == s.db && w in s'.workers && s'.workers == s.workers[w := s'.workers[w]]
    requires s'.workers[w].review == Some(s.workers[w].review.value.(at := s.db.clock))
    requires Leases.Holds(s.db.reviews, s.workers[w].review.value.key, s.workers[w].review.value.token, s.db.clock + ClaimTtl(cfg))
    ensures ReviewsInv(cfg, s')
  {
    assert KeepsReview(cfg, s.db, s.workers[w].review.value);
    forall v | v in s'.workers && s'.workers[v].review.Some?
      ensures KeepsReview(cfg, s'.db, s'.workers[v].review.value)
    {
      if v != w { assert KeepsReview(cfg, s.db, s.workers[v].review.value); }
    }
  }

  lemma ReviewsReleased(cfg: Config, s: State, s': State, w: nat, reply: Reply)
    requires ReviewsInv(cfg, s) && w in s.workers && s.workers[w].phase.Releasing? && s' == DoReleaseNext(s, w, s.workers[w], reply)
    ensures ReviewsInv(cfg, s')
  {
    hide Leases.Release, Semaphore.Release, KeepsReview;
    var me := s.workers[w];
    if me.slot.None? && me.review.Some? {
      assert s'.workers == s.workers[w := me.(review := None)];
      if reply == Dropped(false) { SameReviews(cfg, s, s'); }
      else { ReviewScript(cfg, s, s', Leases.Drop(me.review.value.key, me.review.value.token)); }
    } else {
      SameReviews(cfg, s, s');
    }
  }

  // ---- Slots ---------------------------------------------------------------------------------

  ghost predicate KeepsSlot(cfg: Config, db: Db, h: SlotHold) {
    && h.token < db.serial && h.at <= db.clock
    && h.token in db.home && db.home[h.token] == h.scope
    && (db.clock < h.at + ClaimTtl(cfg) ==> Semaphore.Holds(db.slots, h.token, h.at + ClaimTtl(cfg)))
  }

  ghost predicate SlotsInv(cfg: Config, s: State) {
    && Semaphore.Inv(s.db.home, s.db.slots, Limits(cfg), s.db.clock)
    && (forall t | t in s.db.home :: t < s.db.serial)
    && (forall w | w in s.workers && s.workers[w].slot.Some? :: KeepsSlot(cfg, s.db, s.workers[w].slot.value))
    && (forall v, w | v in s.workers && w in s.workers && v != w && s.workers[v].slot.Some? && s.workers[w].slot.Some? ::
          s.workers[v].slot.value.token != s.workers[w].slot.value.token)
  }

  lemma SameSlots(cfg: Config, s: State, s': State)
    requires SlotsInv(cfg, s) && s'.db.slots == s.db.slots && s'.db.home == s.db.home
    requires s'.db.clock == s.db.clock && s.db.serial <= s'.db.serial
    requires forall w | w in s'.workers && s'.workers[w].slot.Some? :: w in s.workers && s'.workers[w].slot == s.workers[w].slot
    ensures SlotsInv(cfg, s')
  {
    hide Semaphore.Inv;
    forall w | w in s'.workers && s'.workers[w].slot.Some? ensures KeepsSlot(cfg, s'.db, s'.workers[w].slot.value) {
      assert KeepsSlot(cfg, s.db, s.workers[w].slot.value);
    }
  }

  lemma SlotScript(cfg: Config, s: State, s': State, op: Semaphore.Op<ScopeKey>)
    requires SlotsInv(cfg, s) && s'.db.home == s.db.home
    requires (s'.db.slots, s'.db.clock) == Semaphore.Do(s.db.slots, Limits(cfg), s.db.clock, op)
    requires op.Pass? || (op.token in s.db.home && s.db.home[op.token] == op.scope)
    requires s.db.serial <= s'.db.serial
    requires forall w | w in s'.workers && s'.workers[w].slot.Some? ::
      && w in s.workers && s'.workers[w].slot == s.workers[w].slot
      && (op.ReleaseOp? ==> op.token != s.workers[w].slot.value.token)
    ensures SlotsInv(cfg, s')
  {
    hide Semaphore.Inv, Semaphore.Do, Semaphore.Holds;
    Semaphore.DoKeeps(s.db.home, s.db.slots, Limits(cfg), s.db.clock, op);
    assert s.db.clock <= s'.db.clock by { SlotClock(s.db.slots, Limits(cfg), s.db.clock, op); }
    forall w | w in s'.workers && s'.workers[w].slot.Some? ensures KeepsSlot(cfg, s'.db, s'.workers[w].slot.value) {
      var h := s.workers[w].slot.value;
      assert KeepsSlot(cfg, s.db, h);
      if s.db.clock < h.at + ClaimTtl(cfg) {
        Semaphore.SlotSurvives(s.db.home, s.db.slots, Limits(cfg), s.db.clock, op, h.token, h.at + ClaimTtl(cfg));
      }
    }
  }

  lemma SlotClock(slots: Semaphore.Slots<ScopeKey>, limits: Semaphore.Limits, now: nat, op: Semaphore.Op<ScopeKey>)
    ensures now <= Semaphore.Do(slots, limits, now, op).1
  {
  }

  /** Writing down the scope a fresh token is drawn for. */
  lemma HomeGrows(cfg: Config, s: State, s': State, token: nat, scope: ScopeKey)
    requires SlotsInv(cfg, s) && token == s.db.serial
    requires s' == s.(db := s.db.(serial := s.db.serial + 1, home := s.db.home[token := scope]))
    ensures SlotsInv(cfg, s')
  {
    Semaphore.HomeExtends(s.db.home, s'.db.home, s.db.slots, Limits(cfg), s.db.clock);
    forall w | w in s'.workers && s'.workers[w].slot.Some? ensures KeepsSlot(cfg, s'.db, s'.workers[w].slot.value) {
      assert KeepsSlot(cfg, s.db, s.workers[w].slot.value);
    }
  }

  lemma AcquiringSlot(db: Db, cfg: Config, scope: ScopeKey)
    requires (forall t | t in db.home :: t < db.serial)
    ensures var (db', ok) := AcquireSlot(TakeSerial(db), cfg, scope, db.serial);
      && (db'.slots, db'.clock) == Semaphore.Do(db.slots, Limits(cfg), db.clock, Semaphore.AcquireOp(scope, db.serial))
      && db'.home == db.home[db.serial := scope] && db'.serial == db.serial + 1 && db'.clock == db.clock
      && (ok ==> Semaphore.Holds(db'.slots, db.serial, db.clock + ClaimTtl(cfg)))
  {
  }

  /** A new holder beside the ones already there. */
  lemma NewHolder(cfg: Config, rest: State, s': State, w: nat)
    requires SlotsInv(cfg, rest) && w !in rest.workers && w in s'.workers && s'.workers[w].slot.Some?
    requires s'.db == rest.db && forall v | v in s'.workers && v != w :: v in rest.workers && s'.workers[v] == rest.workers[v]
    requires KeepsSlot(cfg, s'.db, s'.workers[w].slot.value)
    requires forall v | v in rest.workers && rest.workers[v].slot.Some? :: rest.workers[v].slot.value.token < s'.workers[w].slot.value.token
    ensures SlotsInv(cfg, s')
  {
    hide Semaphore.Inv, KeepsSlot;
  }

  lemma TokensBelow(cfg: Config, s: State)
    requires SlotsInv(cfg, s)
    ensures forall v | v in s.workers && s.workers[v].slot.Some? :: s.workers[v].slot.value.token < s.db.serial
  {
    forall v | v in s.workers && s.workers[v].slot.Some? ensures s.workers[v].slot.value.token < s.db.serial {
      assert KeepsSlot(cfg, s.db, s.workers[v].slot.value);
    }
  }

  lemma SlotTaken(cfg: Config, s: State, s': State, w: nat, reply: Reply)
    requires SlotsInv(cfg, s) && w in s.workers && s.workers[w].phase.Reviewed? && s.workers[w].slot.None?
    requires s' == DoTakeSlot(cfg, s, w, s.workers[w], reply)
    ensures SlotsInv(cfg, s')
  {
    hide Semaphore.Inv, Semaphore.Do, Semaphore.Holds, AcquireSlot, KeepsSlot;
    var scope := ScopeOf(s.workers[w].phase.record);
    AcquiringSlot(s.db, cfg, scope);
    if reply == Dropped(false) {
      SameSlots(cfg, s, s');
    } else {
      var named := s.(db := s.db.(serial := s.db.serial + 1, home := s.db.home[s.db.serial := scope]));
      HomeGrows(cfg, s, named, s.db.serial, scope);
      var rest := Leave(s', w);
      SlotScript(cfg, named, rest, Semaphore.AcquireOp(scope, s.db.serial));
      TokensBelow(cfg, s);
      if s'.workers[w].slot.Some? {
        assert KeepsSlot(cfg, s'.db, s'.workers[w].slot.value) by { FreshSlot(cfg, s, s', w, reply); }
        NewHolder(cfg, rest, s', w);
      } else {
        SameSlots(cfg, rest, s');
      }
    }
  }

  lemma FreshSlot(cfg: Config, s: State, s': State, w: nat, reply: Reply)
    requires SlotsInv(cfg, s) && w in s.workers && s.workers[w].phase.Reviewed? && s.workers[w].slot.None?
    requires s' == DoTakeSlot(cfg, s, w, s.workers[w], reply) && s'.workers[w].slot.Some?
    ensures KeepsSlot(cfg, s'.db, s'.workers[w].slot.value)
  {
    hide Semaphore.Holds, AcquireSlot, Semaphore.Inv, Semaphore.Do;
    AcquiringSlot(s.db, cfg, ScopeOf(s.workers[w].phase.record));
  }

  lemma SlotsBeat(cfg: Config, s: State, s': State, w: nat, reply: Reply)
    requires SlotsInv(cfg, s) && w in s.workers && CanBeat(s.workers[w]) && s' == DoHeartbeat(cfg, s, w, s.workers[w], reply)
    ensures SlotsInv(cfg, s')
  {
    hide SlotsInv, RenewSlot, RenewClaim, RenewReview, Leases.Renew, Semaphore.Do, Semaphore.Renew;
    var me := s.workers[w];
    RenewingSlot(s.db, cfg, me.slot.value.scope, me.slot.value.token);
    RenewingClaims(s.db, cfg, me.job, me.claim.value, me.review.value);
    if me.phase.beat.ReviewRenewed? && reply != Dropped(false) {
      SlotIsHomed(cfg, s, w);
      var kept := s.(db := s'.db);
      SlotScript(cfg, s, kept, Semaphore.RenewOp(me.slot.value.scope, me.slot.value.token));
      if s'.workers[w].slot == me.slot {
        SameSlots(cfg, kept, s');
      } else {
        assert s'.workers == s.workers[w := s'.workers[w]] && s'.workers[w].slot == Some(me.slot.value.(at := s.db.clock));
        SlotRefreshed(cfg, kept, s', w);
      }
    } else {
      SameSlots(cfg, s, s');
    }
  }

  lemma SlotRefreshed(cfg: Config, s: State, s': State, w: nat)
    requires SlotsInv(cfg, s) && w in s.workers && s.workers[w].slot.Some?
    requires s'.db == s.db && w in s'.workers && s'.workers == s.workers[w := s'.workers[w]]
    requires s'.workers[w].slot == Some(s.workers[w].slot.value.(at := s.db.clock))
    requires Semaphore.Holds(s.db.slots, s.workers[w].slot.value.token, s.db.clock + ClaimTtl(cfg))
    ensures SlotsInv(cfg, s')
  {
    hide Semaphore.Inv, Semaphore.Holds;
    assert KeepsSlot(cfg, s.db, s.workers[w].slot.value);
    forall v | v in s'.workers && s'.workers[v].slot.Some?
      ensures KeepsSlot(cfg, s'.db, s'.workers[v].slot.value)
    {
      if v != w { assert KeepsSlot(cfg, s.db, s.workers[v].slot.value); }
    }
  }

  lemma RenewingSlot(db: Db, cfg: Config, scope: ScopeKey, token: nat)
    ensures var db' := RenewSlot(db, cfg, scope, token).0;
      && (db'.slots, db'.clock) == Semaphore.Do(db.slots, Limits(cfg), db.clock, Semaphore.RenewOp(scope, token))
      && db'.home == db.home && db'.serial == db.serial && db'.clock == db.clock
    ensures RenewSlot(db, cfg, scope, token).1 ==> Semaphore.Holds(RenewSlot(db, cfg, scope, token).0.slots, token, db.clock + ClaimTtl(cfg))
  {
  }

  lemma RenewingClaims(db: Db, cfg: Config, job: nat, token: nat, h: ReviewHold)
    ensures RenewClaim(db, cfg, job, token).0 == db.(claims := RenewClaim(db, cfg, job, token).0.claims)
    ensures RenewReview(db, cfg, h.key, h.token).0 == db.(reviews := RenewReview(db, cfg, h.key, h.token).0.reviews)
  {
  }

  lemma SlotIsHomed(cfg: Config, s: State, w: nat)
    requires SlotsInv(cfg, s) && w in s.workers && s.workers[w].slot.Some?
    ensures s.workers[w].slot.value.token in s.db.home && s.db.home[s.workers[w].slot.value.token] == s.workers[w].slot.value.scope
  {
    assert KeepsSlot(cfg, s.db, s.workers[w].slot.value);
  }

  lemma SlotsReleased(cfg: Config, s: State, s': State, w: nat, reply: Reply)
    requires SlotsInv(cfg, s) && w in s.workers && s.workers[w].phase.Releasing? && s' == DoReleaseNext(s, w, s.workers[w], reply)
    ensures SlotsInv(cfg, s')
  {
    hide Leases.Release, Semaphore.Release, SlotsInv;
    if s.workers[w].slot.Some? {
      SlotGivenBack(cfg, s, s', w, reply);
    } else {
      SameSlots(cfg, s, s');
    }
  }

  lemma SlotGivenBack(cfg: Config, s: State, s': State, w: nat, reply: Reply)
    requires SlotsInv(cfg, s) && w in s.workers && s.workers[w].slot.Some?
    requires s'.workers == s.workers[w := s.workers[w].(slot := None)]
    requires s'.db == Outcome(reply, s.db, ReleaseSlot(s.db, s.workers[w].slot.value.scope, s.workers[w].slot.value.token))
    ensures SlotsInv(cfg, s')
  {
    hide Semaphore.Release, Semaphore.Inv, KeepsSlot;
    var slot := s.workers[w].slot.value;
    SlotIsHomed(cfg, s, w);
    if reply == Dropped(false) { SameSlots(cfg, s, s'); }
    else { SlotScript(cfg, s, s', Semaphore.ReleaseOp(slot.scope, slot.token)); }
  }

  // ---- Phases --------------------------------------------------------------------------------

  /** Which leases a worker holds in each phase, and what they were taken for. */
  ghost predicate PhaseHolds(me: Worker) {
    match me.phase
    case Reviewed(r) => me.slot.None? && me.review.Some? && me.review.value.key == ReviewOf(r) && me.review.value.since <= me.review.value.at
    case Slotted(r) => HoldsBoth(me, r)
    case Started(r) => HoldsBoth(me, r)
    case Executing(r, _) => HoldsBoth(me, r)
    case Executed(_) => true
    case Burying(_) => true
    case Acking => true
    case Releasing => true
    case _ => me.review.None? && me.slot.None?
  }

  ghost predicate HoldsBoth(me: Worker, r: Record) {
    && me.review.Some? && me.review.value.key == ReviewOf(r)
    && me.slot.Some? && me.slot.value.scope == ScopeOf(r)
    && me.review.value.since <= me.review.value.at && me.review.value.since <= me.slot.value.at
  }

  ghost predicate HoldsInv(cfg: Config, s: State) {
    && ReviewsInv(cfg, s)
    && SlotsInv(cfg, s)
    && forall w | w in s.workers :: PhaseHolds(s.workers[w])
  }

  lemma SavePhases(cfg: Config, s: State, s': State, e: Event)
    requires HoldsInv(cfg, s) && s' == Step(cfg, s, e) && s' != s && (e.SaveRunning? || e.StartRun? || e.SaveOutcome?)
    ensures e.w in s'.workers && PhaseHolds(s'.workers[e.w])
  {
    hide ReviewsInv, SlotsInv, SaveJob;
    assert PhaseHolds(s.workers[e.w]);
    match e { case SaveRunning(_, _, _) => case StartRun(_) => case SaveOutcome(_, _) => }
  }

  lemma BeatPhases(cfg: Config, s: State, s': State, e: Event)
    requires HoldsInv(cfg, s) && s' == Step(cfg, s, e) && s' != s && e.Heartbeat?
    ensures e.w in s'.workers && PhaseHolds(s'.workers[e.w])
  {
    var me := s.workers[e.w];
    assert PhaseHolds(me) && CanBeat(me) && s' == DoHeartbeat(cfg, s, e.w, me, e.reply);
    ReviewInPast(cfg, s, e.w);
    SlotInPast(cfg, s, e.w);
    hide HoldsInv, Step, WorkerStep, RenewClaim, RenewReview, RenewSlot;
    assert s'.workers[e.w].phase.Executing? && s'.workers[e.w].phase.record == me.phase.record;
  }

  lemma TakingPhases(cfg: Config, s: State, s': State, e: Event)
    requires HoldsInv(cfg, s) && s' == Step(cfg, s, e) && s' != s && (e.ClaimReview? || e.TakeSlot?)
    ensures e.w in s'.workers && PhaseHolds(s'.workers[e.w])
  {
    hide ReviewsInv, SlotsInv, Leases.SetNX, Semaphore.Acquire;
    assert PhaseHolds(s.workers[e.w]);
    if s.workers[e.w].review.Some? { ReviewInPast(cfg, s, e.w); }
    match e { case ClaimReview(_, _) => case TakeSlot(_, _) => }
  }

  lemma EntryPhases(cfg: Config, s: State, s': State, e: Event)
    requires e.Deliver? || e.AutoClaim? || e.Scan? || e.Claim? || e.Fetch?
    requires e.w in s.workers ==> PhaseHolds(s.workers[e.w])
    requires s' == Step(cfg, s, e) && s' != s && e.w in s'.workers
    ensures PhaseHolds(s'.workers[e.w])
  {
    hide TakeOver, ClaimJob;
  }

  lemma EndingPhases(cfg: Config, s: State, s': State, e: Event)
    requires e.FinishRun? || e.Bury? || e.Ack? || e.ReleaseNext? || e.Crash?
    requires e.w in s.workers && PhaseHolds(s.workers[e.w])
    requires s' == Step(cfg, s, e) && s' != s && e.w in s'.workers
    ensures PhaseHolds(s'.workers[e.w])
  {
    hide Conclude, ReleaseClaim, ReleaseReview, ReleaseSlot;
  }

  lemma PlainPhases(cfg: Config, s: State, s': State, e: Event)
    requires e.Deliver? || e.AutoClaim? || e.Scan? || e.Claim? || e.Fetch? || e.FinishRun? || e.Bury? || e.Ack? || e.ReleaseNext? || e.Crash?
    requires HoldsInv(cfg, s) && s' == Step(cfg, s, e) && s' != s && e.w in s'.workers
    ensures PhaseHolds(s'.workers[e.w])
  {
    hide ReviewsInv, SlotsInv, PhaseHolds, WorkerStep;
    if e.FinishRun? || e.Bury? || e.Ack? || e.ReleaseNext? || e.Crash? {
      EndingPhases(cfg, s, s', e);
    } else {
      EntryPhases(cfg, s, s', e);
    }
  }

  lemma PhaseStep(cfg: Config, s: State, s': State, e: Event)
    requires HoldsInv(cfg, s) && s' == Step(cfg, s, e) && s' != s && !e.Tick? && !e.Submit?
    requires e.w in s'.workers
    ensures PhaseHolds(s'.workers[e.w])
  {
    hide HoldsInv, PhaseHolds, Step;
    if e.SaveRunning? || e.StartRun? || e.SaveOutcome? { SavePhases(cfg, s, s', e); }
    else if e.Heartbeat? { BeatPhases(cfg, s, s', e); }
    else if e.ClaimReview? || e.TakeSlot? { TakingPhases(cfg, s, s', e); }
    else { PlainPhases(cfg, s, s', e); }
  }

  lemma ReviewInPast(cfg: Config, s: State, w: nat)
    requires ReviewsInv(cfg, s) && w in s.workers && s.workers[w].review.Some?
    ensures s.workers[w].review.value.at <= s.db.clock
  {
    assert KeepsReview(cfg, s.db, s.workers[w].review.value);
  }

  lemma SlotInPast(cfg: Config, s: State, w: nat)
    requires SlotsInv(cfg, s) && w in s.workers && s.workers[w].slot.Some?
    ensures s.workers[w].slot.value.at <= s.db.clock
  {
    assert KeepsSlot(cfg, s.db, s.workers[w].slot.value);
  }

  // ---- Steps ---------------------------------------------------------------------------------

  lemma TickHolds(cfg: Config, s: State, s': State, until: nat)
    requires HoldsInv(cfg, s) && s' == Step(cfg, s, Tick(until))
    ensures HoldsInv(cfg, s')
  {
    hide ReviewsInv, SlotsInv;
    if until < s.db.clock { assert s' == s; } else {
      ReviewScript(cfg, s, s', Leases.Pass(until));
      SlotScript(cfg, s, s', Semaphore.Pass(until));
    }
  }

  /** A step that touches neither claims nor slots. */
  ghost predicate NoLease(s: State, s': State) {
    && s'.db.reviews == s.db.reviews && s'.db.slots == s.db.slots && s'.db.home == s.db.home
    && s'.db.clock == s.db.clock && s.db.serial <= s'.db.serial
    && forall w | w in s'.workers && (s'.workers[w].review.Some? || s'.workers[w].slot.Some?) ::
      && w in s.workers && s'.workers[w].review == s.workers[w].review && s'.workers[w].slot == s.workers[w].slot
  }

  lemma NoLeaseHolds(cfg: Config, s: State, s': State)
    requires HoldsInv(cfg, s) && NoLease(s, s')
    ensures ReviewsInv(cfg, s') && SlotsInv(cfg, s')
  {
    hide ReviewsInv, SlotsInv;
    SameReviews(cfg, s, s');
    SameSlots(cfg, s, s');
  }

  lemma LeaseHolds(cfg: Config, s: State, s': State, e: Event)
    requires e.ClaimReview? || e.TakeSlot? || e.Heartbeat? || e.ReleaseNext?
    requires HoldsInv(cfg, s) && s' == Step(cfg, s, e) && s' != s
    ensures ReviewsInv(cfg, s') && SlotsInv(cfg, s')
  {
    hide ReviewsInv, SlotsInv, Leases.SetNX, Semaphore.Acquire;
    assert PhaseHolds(s.workers[e.w]);
    match e
    case ClaimReview(w, reply) => ReviewTaken(cfg, s, s', w, reply); SameSlots(cfg, s, s');
    case TakeSlot(w, reply) => SlotTaken(cfg, s, s', w, reply); SameReviews(cfg, s, s');
    case Heartbeat(w, reply) => ReviewsBeat(cfg, s, s', w, reply); SlotsBeat(cfg, s, s', w, reply);
    case ReleaseNext(w, reply) => ReviewsReleased(cfg, s, s', w, reply); SlotsReleased(cfg, s, s', w, reply);
  }

  lemma SaveNoLease(db: Db, ttl: nat, r: Record, expected: nat)
    ensures var db' := SaveJob(db, ttl, r, expected).0;
      && db'.reviews == db.reviews && db'.slots == db.slots && db'.home == db.home && db'.clock == db.clock && db'.serial == db.serial
  {
  }

  lemma SavesNoLease(cfg: Config, s: State, s': State, e: Event)
    requires e.SaveRunning? || e.SaveOutcome?
    requires s' == Step(cfg, s, e) && s' != s
    ensures NoLease(s, s')
  {
    hide Begin, SaveJob;
    var copy := s.workers[e.w].phase.record;
    SaveNoLease(s.db, cfg.jobTtl, copy.(version := copy.version + 1), copy.version);
    if e.SaveRunning? { SaveNoLease(s.db, cfg.jobTtl, Begin(copy, e.at).(version := copy.version + 1), copy.version); }
  }

  lemma CopiesNoLease(cfg: Config, s: State, s': State, e: Event)
    requires e.Fetch? || e.FinishRun?
    requires s' == Step(cfg, s, e) && s' != s
    ensures NoLease(s, s')
  {
    hide TakeOver, Conclude;
    match e { case Fetch(_, _, _) => case FinishRun(_, _, _) => }
  }

  lemma EntryNoLease(cfg: Config, s: State, s': State, e: Event)
    requires e.Submit? || e.Deliver? || e.AutoClaim? || e.Scan?
    requires s' == Step(cfg, s, e) && s' != s
    ensures NoLease(s, s')
  {
    match e { case Submit(_, _, _, _, _) => case Deliver(_, _) => case AutoClaim(_, _, _) => case Scan(_, _) => }
  }

  lemma ClaimNoLease(cfg: Config, s: State, s': State, e: Event)
    requires e.Claim?
    requires s' == Step(cfg, s, e) && s' != s
    ensures NoLease(s, s')
  {
    assert e.w in s.workers && s' == DoClaim(cfg, s, e.w, s.workers[e.w], e.reply);
    hide Leases.SetNX, Step, WorkerStep;
    var (after, ok) := ClaimJob(TakeSerial(s.db), cfg, s.workers[e.w].job, s.db.serial);
    assert after.reviews == s.db.reviews && after.slots == s.db.slots && after.home == s.db.home && after.clock == s.db.clock;
  }

  lemma SettlingNoLease(cfg: Config, s: State, s': State, e: Event)
    requires e.StartRun? || e.Bury?
    requires s' == Step(cfg, s, e) && s' != s
    ensures NoLease(s, s')
  {
    match e { case StartRun(_) => case Bury(_, _) => }
  }

  lemma LeavingNoLease(cfg: Config, s: State, s': State, e: Event)
    requires e.Ack? || e.Crash?
    requires s' == Step(cfg, s, e) && s' != s
    ensures NoLease(s, s')
  {
    match e { case Ack(_, _) => case Crash(_) => }
  }

  lemma PlainHolds(cfg: Config, s: State, s': State, e: Event)
    requires !e.Tick? && !e.ClaimReview? && !e.TakeSlot? && !e.Heartbeat? && !e.ReleaseNext?
    requires HoldsInv(cfg, s) && s' == Step(cfg, s, e) && s' != s
    ensures ReviewsInv(cfg, s') && SlotsInv(cfg, s')
  {
    hide HoldsInv, NoLease, WorkerStep;
    if e.SaveRunning? || e.SaveOutcome? {
      SavesNoLease(cfg, s, s', e);
    } else if e.Fetch? || e.FinishRun? {
      CopiesNoLease(cfg, s, s', e);
    } else if e.Submit? || e.Deliver? || e.AutoClaim? || e.Scan? {
      EntryNoLease(cfg, s, s', e);
    } else if e.Claim? {
      ClaimNoLease(cfg, s, s', e);
    } else if e.StartRun? || e.Bury? {
      SettlingNoLease(cfg, s, s', e);
    } else {
      LeavingNoLease(cfg, s, s', e);
    }
    NoLeaseHolds(cfg, s, s');
  }

  lemma StepHolds(cfg: Config, s: State, s': State, e: Event)
    requires HoldsInv(cfg, s) && s' == Step(cfg, s, e)
    ensures HoldsInv(cfg, s')
  {
    hide ReviewsInv, SlotsInv, PhaseHolds;
    if s' != s {
      if e.Tick? { TickHolds(cfg, s, s', e.until); } else {
        if e.ClaimReview? || e.TakeSlot? || e.Heartbeat? || e.ReleaseNext? { LeaseHolds(cfg, s, s', e); } else { PlainHolds(cfg, s, s', e); }
        OthersStay(cfg, s, s', e);
        if !e.Submit? && e.w in s'.workers { PhaseStep(cfg, s, s', e); }
      }
    }
  }

  lemma OthersStay(cfg: Config, s: State, s': State, e: Event)
    requires s' == Step(cfg, s, e)
    ensures e.Tick? || e.Submit? ==> s'.workers == s.workers
    ensures !e.Tick? && !e.Submit? ==> forall v | v in s'.workers && v != e.w :: v in s.workers && s'.workers[v] == s.workers[v]
  {
    hide CreateJob, SaveJob, TakeOver, Conclude, Begin, ClaimJob, ClaimReviewKey, AcquireSlot, RenewClaim, RenewReview, RenewSlot,
      ReleaseClaim, ReleaseReview, ReleaseSlot, Elapse, Renewed;
  }

  // ---- What it buys --------------------------------------------------------------------------

  /** A run whose review claim was taken, or last renewed with a good answer, no longer ago than a lease lasts. */
  ghost predicate HoldsReview(cfg: Config, s: State, w: nat) {
    && w in s.workers && s.workers[w].phase.Executing? && s.workers[w].review.Some?
    && s.db.clock <= s.workers[w].review.value.at + ClaimTtl(cfg)
  }

  /** The same for its slot. */
  ghost predicate HoldsSlot(cfg: Config, s: State, w: nat) {
    && w in s.workers && s.workers[w].phase.Executing? && s.workers[w].slot.Some?
    && s.db.clock < s.workers[w].slot.value.at + ClaimTtl(cfg)
  }

  /** A run that began within the grace period after its review claim and is within its timeout. */
  ghost predicate InWindow(cfg: Config, s: State, w: nat) {
    && w in s.workers && s.workers[w].phase.Executing? && s.workers[w].review.Some?
    && s.workers[w].startedAt < s.workers[w].review.value.since + GRACE
    && s.db.clock <= s.workers[w].startedAt + cfg.runTimeout
  }

  /** Such a run needs no renewal. */
  lemma TimelyRunsHold(cfg: Config, s: State, w: nat)
    requires HoldsInv(cfg, s) && InWindow(cfg, s, w)
    ensures HoldsReview(cfg, s, w) && HoldsSlot(cfg, s, w)
  {
    hide ReviewsInv, SlotsInv;
    assert PhaseHolds(s.workers[w]);
  }

  /** Two runs that hold their claims are never of the same review, whichever jobs they belong to. */
  lemma RunsExclude(cfg: Config, s: State, v: nat, w: nat)
    requires HoldsInv(cfg, s) && HoldsReview(cfg, s, v) && HoldsReview(cfg, s, w)
    requires s.workers[v].phase.record.order.store == s.workers[w].phase.record.order.store
    requires s.workers[v].phase.record.order.review == s.workers[w].phase.record.order.review
    ensures v == w
  {
    hide SlotsInv;
    assert PhaseHolds(s.workers[v]) && PhaseHolds(s.workers[w]);
    assert KeepsReview(cfg, s.db, s.workers[v].review.value) && KeepsReview(cfg, s.db, s.workers[w].review.value);
  }

  function SlotTokens(s: State, ws: set<nat>): set<nat>
    requires forall w | w in ws :: w in s.workers && s.workers[w].slot.Some?
  {
    set w | w in ws :: s.workers[w].slot.value.token
  }

  lemma {:induction false} TokensCount(cfg: Config, s: State, ws: set<nat>)
    requires SlotsInv(cfg, s)
    requires forall w | w in ws :: w in s.workers && s.workers[w].slot.Some?
    ensures |SlotTokens(s, ws)| == |ws|
  {
    hide Semaphore.Inv;
    if ws != {} {
      var w :| w in ws;
      TokensCount(cfg, s, ws - {w});
      assert SlotTokens(s, ws) == SlotTokens(s, ws - {w}) + {s.workers[w].slot.value.token};
    }
  }

  predicate InScope(r: Record, store: int, scope: string) {
    r.order.store == store && r.order.scope == scope
  }

  /** Runs that hold their slots are never more than GlobalConcurrency, nor in one scope more than ScopeConcurrency. */
  lemma RunsFit(cfg: Config, s: State, ws: set<nat>, store: int, scope: string)
    requires HoldsInv(cfg, s) && forall w | w in ws :: HoldsSlot(cfg, s, w)
    ensures |ws| <= cfg.globalLimit
    ensures (forall w | w in ws :: HoldsSlot(cfg, s, w) && InScope(s.workers[w].phase.record, store, scope)) ==> |ws| <= cfg.scopeLimit
  {
    hide ReviewsInv, Semaphore.Inv;
    forall w | w in ws
      ensures s.workers[w].slot.Some? && s.workers[w].slot.value.token in s.db.home
      ensures s.db.home[s.workers[w].slot.value.token] == ScopeOf(s.workers[w].phase.record)
      ensures Semaphore.Holds(s.db.slots, s.workers[w].slot.value.token, s.db.clock + 1)
    {
      assert HoldsSlot(cfg, s, w) && PhaseHolds(s.workers[w]);
      assert KeepsSlot(cfg, s.db, s.workers[w].slot.value);
    }
    TokensCount(cfg, s, ws);
    Semaphore.HoldersFit(s.db.home, s.db.slots, Limits(cfg), s.db.clock, SlotTokens(s, ws), (store, scope));
  }
}
