/**
  Runs that show what the queue does not promise. One worker after another takes the job over, runs the
  agent and fails to store the outcome: attempts have no bound, and a FAILED job can lose its dead letter.
 */
module JobTakeovers {
  import opened Options
  import opened JobRecord
  import opened JobMachine
  import opened JobHistory
  import opened JobBurial
  import opened JobRuns
  import opened JobSafety
  import Leases
  import Semaphore

  /** Every time a worker reads on its own clock is the time it then is in Redis. */
  predicate Prompt(s: State, e: Event) {
    match e
    case Submit(_, _, _, at, _) => at == s.db.clock
    case AutoClaim(_, _, scannedAt) => scannedAt == s.db.clock
    case Fetch(_, _, at) => at == s.db.clock
    case SaveRunning(_, _, at) => at == s.db.clock
    case FinishRun(_, _, at) => at == s.db.clock
    case _ => true
  }

  predicate AllPrompt(cfg: Config, s: State, events: seq<Event>)
    decreases |events|
  {
    events == [] || (Prompt(s, events[0]) && AllPrompt(cfg, Step(cfg, s, events[0]), events[1..]))
  }

  /** Recovery leaves a RUNNING record alone for ClaimTtl, and XAUTOCLAIM hands out entries idle for RetryBackoff. */
  function Wait(cfg: Config): nat {
    if cfg.retryBackoff <= ClaimTtl(cfg) then ClaimTtl(cfg) else cfg.retryBackoff
  }

  /** A job outlives that wait, as with the default settings. */
  predicate OutlivesClaim(cfg: Config) {
    Wait(cfg) <= cfg.jobTtl
  }

  /** The clocks need to disagree only where a job lapses before it may be taken over. */
  predicate Plausible(cfg: Config, events: seq<Event>) {
    OutlivesClaim(cfg) ==> AllPrompt(cfg, INITIAL, events)
  }

  ghost predicate Occurs(cfg: Config, s: State) {
    exists events: seq<Event> :: s == Reached(cfg, events) && Plausible(cfg, events)
  }

  lemma {:induction false} PromptJoins(cfg: Config, s: State, xs: seq<Event>, e: Event)
    requires AllPrompt(cfg, s, xs) && Prompt(Play(cfg, s, xs), e)
    ensures AllPrompt(cfg, s, xs + [e])
    decreases |xs|
  {
    hide Step, Prompt;
    if xs == [] {
      assert xs + [e] == [e] && [e][1..] == [];
      assert AllPrompt(cfg, Step(cfg, s, e), []);
    } else {
      assert (xs + [e])[1..] == xs[1..] + [e];
      PromptJoins(cfg, Step(cfg, s, xs[0]), xs[1..], e);
    }
  }

  lemma Goes(cfg: Config, s: State, s': State, e: Event)
    requires Occurs(cfg, s) && s' == Step(cfg, s, e) && (OutlivesClaim(cfg) ==> Prompt(s, e))
    ensures Occurs(cfg, s')
  {
    hide Step, Prompt, OutlivesClaim;
    var events: seq<Event> :| s == Reached(cfg, events) && Plausible(cfg, events);
    PlayJoins(cfg, INITIAL, events, [e]);
    assert Play(cfg, s, [e]) == Play(cfg, s', [e][1..]);
    if OutlivesClaim(cfg) { PromptJoins(cfg, INITIAL, events, e); }
    assert s' == Reached(cfg, events + [e]);
  }

  // ---- One job, one worker at a time ---------------------------------------------------------

  /** The slot, if there is one, is the only member of any of the sets. */
  ghost predicate OnlySlot(slots: Semaphore.Slots<ScopeKey>, slot: Option<SlotHold>) {
    && slots.global.scores.Keys == (if slot.Some? then {slot.value.token} else {})
    && forall k | k in slots.scopes ::
         slots.scopes[k].scores.Keys <= if slot.Some? && k == slot.value.scope then {slot.value.token} else {}
  }

  /** Redis holds the worker's leases and no others. */
  ghost predicate OnlyLeases(db: Db, me: Worker) {
    && (if me.claim.Some? then db.claims.Keys == {0} && db.claims[0].token == me.claim.value else db.claims == map[])
    && (if me.review.Some? then db.reviews.Keys == {me.review.value.key} && db.reviews[me.review.value.key].token == me.review.value.token
        else db.reviews == map[])
    && OnlySlot(db.slots, me.slot)
  }

  /** Job 0 is all there is; r is its stored record and its entry is not acknowledged. n runs were begun. */
  ghost predicate OneJob(cfg: Config, db: Db, r: Record, n: nat) {
    && db.stream == map[0 := 0] && db.queue == [] && db.deadLetters == []
    && r.id == 0 && db.records == map[0 := Stored(r, r.updatedAt + cfg.jobTtl)]
    && 0 in db.history && db.history[0] != [] && Last(db.history[0]) == r
    && |db.runs| == n && forall i | 0 <= i < n :: db.runs[i].job == 0 && db.runs[i].attempt == i + 1
  }

  ghost predicate Busy(cfg: Config, s: State, me: Worker, r: Record, n: nat) {
    && s.workers == map[0 := me] && me.entry == 0 && me.job == 0
    && OneJob(cfg, s.db, r, n) && OnlyLeases(s.db, me)
  }

  /** A copy of the stored record that its worker may go on with. */
  predicate CopyOf(copy: Record, r: Record) {
    copy.id == r.id && copy.version == r.version && copy.order == r.order && copy.attempts == r.attempts
  }

  function Pause(cfg: Config): nat {
    if OutlivesClaim(cfg) then Wait(cfg) else 0
  }

  /** Nobody is at work on the job, which is PENDING or was left RUNNING, and its claims would have lapsed. */
  ghost predicate Abandoned(cfg: Config, s: State, r: Record, n: nat) {
    && s.workers == map[] && OneJob(cfg, s.db, r, n)
    && s.db.claims == map[] && s.db.reviews == map[] && OnlySlot(s.db.slots, None)
    && r.attempts == n && r.status == (if n == 0 then Pending else Running)
    && s.db.clock == r.updatedAt + Pause(cfg)
  }

  lemma AtWork(cfg: Config, s: State, me: Worker, r: Record, n: nat)
    requires Busy(cfg, s, me, r, n)
    ensures 0 in s.workers && s.workers[0] == me
  {
  }

  lemma LeftBehind(cfg: Config, s: State, r: Record, n: nat)
    requires Abandoned(cfg, s, r, n)
    ensures s.workers == map[] && 0 in s.db.stream && s.db.queue == []
    ensures r.attempts == n && r.status == (if n == 0 then Pending else Running) && s.db.clock == r.updatedAt + Pause(cfg)
  {
  }

  const IDLE := Worker(Delivered, 0, 0, None, None, None, 0, 0)

  lemma Taken(cfg: Config, s: State, s': State, r: Record, n: nat)
    requires Abandoned(cfg, s, r, n)
    requires s' == DoAutoClaim(s, 0, 0, r.updatedAt + Wait(cfg))
    ensures Busy(cfg, s', IDLE.(phase := Scanning(r.updatedAt + Wait(cfg))), r, n) && s'.db == s.db
  {
  }

  lemma Screened(cfg: Config, s: State, s': State, me: Worker, r: Record, n: nat)
    requires Busy(cfg, s, me, r, n) && me.phase == Scanning(r.updatedAt + Wait(cfg)) && !IsTerminal(r.status)
    requires s' == DoScan(cfg, s, 0, me, true)
    ensures Busy(cfg, s', me.(phase := Delivered), r, n) && s'.db == s.db
  {
  }

  lemma JobClaimed(cfg: Config, s: State, s': State, me: Worker, r: Record, n: nat) returns (held: Worker)
    requires Busy(cfg, s, me, r, n) && me.claim.None?
    requires s' == DoClaim(cfg, s, 0, me, Answered)
    ensures held == me.(phase := Claimed, claim := held.claim) && held.claim.Some?
    ensures Busy(cfg, s', held, r, n) && s'.db.clock == s.db.clock
  {
    held := me.(phase := Claimed, claim := Some(s.db.serial));
  }

  lemma JobFetched(cfg: Config, s: State, s': State, me: Worker, r: Record, n: nat) returns (copy: Record)
    requires Busy(cfg, s, me, r, n) && (r.status == Pending || r.status == Running)
    requires s' == DoFetch(cfg, s, 0, me, true, s.db.clock)
    ensures CopyOf(copy, r) && Busy(cfg, s', me.(phase := Fetched(copy)), r, n) && s'.db.clock == s.db.clock
  {
    hide OnlySlot;
    copy := if r.status.Running? then TakeOver(r, s.db.serial, s.db.clock) else r;
  }

  lemma ReviewClaimed(cfg: Config, s: State, s': State, me: Worker, copy: Record, r: Record, n: nat) returns (held: Worker)
    requires Busy(cfg, s, me, r, n) && me.phase == Fetched(copy) && me.review.None?
    requires s' == DoClaimReview(cfg, s, 0, me, Answered)
    ensures held == me.(phase := Reviewed(copy), review := held.review) && held.review.Some?
    ensures Busy(cfg, s', held, r, n) && s'.db.clock == s.db.clock
  {
    hide OnlySlot;
    held := me.(phase := Reviewed(copy), review := Some(ReviewHold(ReviewOf(copy), s.db.serial, s.db.clock, s.db.clock)));
  }

  lemma SlotTaken(cfg: Config, s: State, s': State, me: Worker, copy: Record, r: Record, n: nat) returns (held: Worker)
    requires cfg.globalLimit > 0 && cfg.scopeLimit > 0
    requires Busy(cfg, s, me, r, n) && me.phase == Reviewed(copy) && me.slot.None?
    requires s' == DoTakeSlot(cfg, s, 0, me, Answered)
    ensures held == me.(phase := Slotted(copy), slot := held.slot) && held.slot.Some?
    ensures Busy(cfg, s', held, r, n) && s'.db.clock == s.db.clock
  {
    hide OnlySlot, Semaphore.Acquire;
    held := me.(phase := Slotted(copy), slot := Some(SlotHold(ScopeOf(copy), s.db.serial, s.db.clock)));
    VacantSlot(s.db.slots, Limits(cfg), ScopeOf(copy), s.db.serial, s.db.clock);
  }

  /** With no member around, a slot is granted. */
  lemma VacantSlot(slots: Semaphore.Slots<ScopeKey>, limits: Semaphore.Limits, k: ScopeKey, token: nat, now: nat)
    requires OnlySlot(slots, None) && limits.global > 0 && limits.scope > 0
    ensures Semaphore.Acquire(slots, limits, k, token, now).1
    ensures OnlySlot(Semaphore.Acquire(slots, limits, k, token, now).0, Some(SlotHold(k, token, now)))
  {
    var g := Semaphore.Prune(slots.global, now);
    var z := Semaphore.Prune(Semaphore.Scope(slots, k), now);
    assert g.scores == map[] && z.scores == map[];
  }

  lemma SlotFreed(slots: Semaphore.Slots<ScopeKey>, slot: SlotHold)
    requires OnlySlot(slots, Some(slot))
    ensures OnlySlot(Semaphore.Release(slots, slot.scope, slot.token), None)
  {
    var s := Semaphore.Release(slots, slot.scope, slot.token);
    assert s.global.scores.Keys == {};
    forall k | k in s.scopes ensures s.scopes[k].scores.Keys <= {} {
      if k in slots.scopes { assert slots.scopes[k].scores.Keys <= if k == slot.scope then {slot.token} else {}; }
    }
  }

  lemma RunningStored(cfg: Config, s: State, s': State, me: Worker, copy: Record, r: Record, n: nat) returns (running: Record)
    requires Busy(cfg, s, me, r, n) && me.phase == Slotted(copy) && CopyOf(copy, r)
    requires s' == DoSaveRunning(cfg, s, 0, me, Answered, s.db.clock)
    ensures running.status == Running && running.attempts == r.attempts + 1 && running.order == r.order && running.updatedAt == s.db.clock
    ensures Busy(cfg, s', me.(phase := Started(running)), running, n) && s'.db.clock == s.db.clock
  {
    hide OnlyLeases;
    running := Begin(copy, s.db.clock).(version := copy.version + 1);
    SameLeases(s.db, s'.db, me, me.(phase := Started(running)));
    OneWorker(s.workers, me, me.(phase := Started(running)));
  }

  lemma SameLeases(db: Db, db': Db, me: Worker, me': Worker)
    requires OnlyLeases(db, me) && db'.claims == db.claims && db'.reviews == db.reviews && db'.slots == db.slots
    requires me'.claim == me.claim && me'.review == me.review && me'.slot == me.slot
    ensures OnlyLeases(db', me')
  {
  }

  lemma OneWorker(workers: map<nat, Worker>, me: Worker, me': Worker)
    requires workers == map[0 := me]
    ensures workers[0 := me'] == map[0 := me']
  {
  }

  lemma SameJob(cfg: Config, db: Db, db': Db, r: Record, n: nat)
    requires OneJob(cfg, db, r, n)
    requires db'.stream == db.stream && db'.queue == db.queue && db'.deadLetters == db.deadLetters
    requires db'.records == db.records && db'.history == db.history && db'.runs == db.runs
    ensures OneJob(cfg, db', r, n)
  {
  }

  lemma RunBegun(cfg: Config, s: State, s': State, me: Worker, r: Record, n: nat) returns (held: Worker)
    requires Busy(cfg, s, me, r, n) && me.phase == Started(r) && r.attempts == n + 1
    requires s' == DoStartRun(s, 0, me)
    ensures held == me.(phase := Executing(r, Resting), startedAt := held.startedAt)
    ensures Busy(cfg, s', held, r, n + 1) && s'.db.clock == s.db.clock
  {
    hide OnlyLeases;
    held := me.(phase := Executing(r, Resting), startedAt := s.db.clock);
    SameLeases(s.db, s'.db, me, held);
  }

  lemma RunEnded(cfg: Config, s: State, s': State, me: Worker, r: Record, n: nat) returns (outcome: Record)
    requires Busy(cfg, s, me, r, n) && me.phase == Executing(r, Resting)
    requires s' == DoFinishRun(s, 0, me, Crashed(""), s.db.clock)
    ensures outcome == Conclude(r, Crashed(""), s.db.serial, s.db.clock)
    ensures Busy(cfg, s', me.(phase := Executed(outcome)), r, n) && s'.db.clock == s.db.clock
  {
    hide OnlyLeases, Conclude, OneJob;
    outcome := Conclude(r, Crashed(""), s.db.serial, s.db.clock);
    SameLeases(s.db, s'.db, me, me.(phase := Executed(outcome)));
    SameJob(cfg, s.db, s'.db, r, n);
    OneWorker(s.workers, me, me.(phase := Executed(outcome)));
  }

  lemma OutcomeLost(cfg: Config, s: State, s': State, me: Worker, r: Record, n: nat)
    requires Busy(cfg, s, me, r, n) && me.phase.Executed?
    requires s' == DoSaveOutcome(cfg, s, 0, me, Dropped(false))
    ensures Busy(cfg, s', me.(phase := Releasing), r, n) && s'.db.clock == s.db.clock
  {
    hide OnlyLeases, SaveJob;
    SameLeases(s.db, s'.db, me, me.(phase := Releasing));
  }

  lemma SlotReleased(cfg: Config, s: State, s': State, me: Worker, r: Record, n: nat)
    requires Busy(cfg, s, me, r, n) && me.slot.Some?
    requires s' == DoReleaseNext(s, 0, me, Answered)
    ensures Busy(cfg, s', me.(slot := None), r, n) && s'.db.clock == s.db.clock
  {
    hide OnlySlot, Semaphore.Release;
    SlotFreed(s.db.slots, me.slot.value);
  }

  lemma ReviewReleased(cfg: Config, s: State, s': State, me: Worker, r: Record, n: nat)
    requires Busy(cfg, s, me, r, n) && me.slot.None? && me.review.Some?
    requires s' == DoReleaseNext(s, 0, me, Answered)
    ensures Busy(cfg, s', me.(review := None), r, n) && s'.db.clock == s.db.clock
  {
    hide OnlySlot;
  }

  lemma ClaimReleased(cfg: Config, s: State, s': State, me: Worker, r: Record, n: nat)
    requires Busy(cfg, s, me, r, n) && me.slot.None? && me.review.None? && me.claim.Some?
    requires s' == DoReleaseNext(s, 0, me, Answered)
    ensures Busy(cfg, s', me.(claim := None), r, n) && s'.db.clock == s.db.clock
  {
    hide OnlySlot;
  }

  lemma Left(cfg: Config, s: State, s': State, me: Worker, r: Record, n: nat)
    requires Busy(cfg, s, me, r, n) && me.slot.None? && me.review.None? && me.claim.None?
    requires r.attempts == n && r.status == Running && s.db.clock == r.updatedAt && n > 0
    requires s' == State(Elapse(s.db, s.db.clock + Pause(cfg)), map[])
    ensures Abandoned(cfg, s', r, n)
  {
    PauseOutlived(cfg, s.db, r, n);
  }

  /** The job does not lapse while it is left alone. */
  lemma PauseOutlived(cfg: Config, db: Db, r: Record, n: nat)
    requires OneJob(cfg, db, r, n) && OnlySlot(db.slots, None) && db.claims == map[] && db.reviews == map[] && db.clock == r.updatedAt
    ensures var later := Elapse(db, db.clock + Pause(cfg));
      OneJob(cfg, later, r, n) && OnlySlot(later.slots, None) && later.claims == map[] && later.reviews == map[]
  {
  }

  // ---- A round -------------------------------------------------------------------------------

  ghost predicate Reachable(cfg: Config, s: State, me: Worker, r: Record, n: nat) {
    Occurs(cfg, s) && Busy(cfg, s, me, r, n)
  }

  /** From the abandoned job to a worker that has claimed it and read its record. */
  lemma Resumes(cfg: Config, s: State, r: Record, n: nat) returns (t: State, me: Worker, copy: Record)
    requires Occurs(cfg, s) && Abandoned(cfg, s, r, n)
    ensures Reachable(cfg, t, me, r, n) && CopyOf(copy, r) && t.db.clock == s.db.clock
    ensures me.phase == Fetched(copy) && me.claim.Some? && me.review.None? && me.slot.None?
  {
    hide Occurs, Busy, Abandoned, DoScan, DoClaim, DoFetch;
    var c := s.db.clock;
    LeftBehind(cfg, s, r, n);
    var s1 := DoAutoClaim(s, 0, 0, r.updatedAt + Wait(cfg));
    Taken(cfg, s, s1, r, n);
    Goes(cfg, s, s1, AutoClaim(0, 0, r.updatedAt + Wait(cfg)));
    t, me := s1, IDLE.(phase := Scanning(r.updatedAt + Wait(cfg)));
    t, me := ScreenAndClaim(cfg, t, me, r, n);
    var s2 := DoFetch(cfg, t, 0, me, true, t.db.clock);
    copy := JobFetched(cfg, t, s2, me, r, n);
    AtWork(cfg, t, me, r, n);
    Goes(cfg, t, s2, Fetch(0, true, t.db.clock));
    t, me := s2, me.(phase := Fetched(copy));
  }

  lemma ScreenAndClaim(cfg: Config, s: State, me: Worker, r: Record, n: nat) returns (t: State, held: Worker)
    requires Reachable(cfg, s, me, r, n) && me.phase == Scanning(r.updatedAt + Wait(cfg)) && !IsTerminal(r.status) && me.claim.None?
    ensures Reachable(cfg, t, held, r, n) && t.db.clock == s.db.clock
    ensures held == me.(phase := Claimed, claim := held.claim) && held.claim.Some?
  {
    hide Occurs, Busy, DoScan, DoClaim;
    t := DoScan(cfg, s, 0, me, true);
    Screened(cfg, s, t, me, r, n);
    AtWork(cfg, s, me, r, n);
    Goes(cfg, s, t, Scan(0, true));
    var s1, me1 := t, me.(phase := Delivered);
    t := DoClaim(cfg, s1, 0, me1, Answered);
    held := JobClaimed(cfg, s1, t, me1, r, n);
    AtWork(cfg, s1, me1, r, n);
    Goes(cfg, s1, t, Claim(0, Answered));
  }

  lemma TakesLeases(cfg: Config, s: State, me: Worker, copy: Record, r: Record, n: nat) returns (t: State, held: Worker)
    requires cfg.globalLimit > 0 && cfg.scopeLimit > 0
    requires Reachable(cfg, s, me, r, n) && me.phase == Fetched(copy) && me.claim.Some? && me.review.None? && me.slot.None?
    ensures Reachable(cfg, t, held, r, n) && t.db.clock == s.db.clock
    ensures held.phase == Slotted(copy) && held.claim.Some? && held.review.Some? && held.slot.Some?
  {
    hide Occurs, Busy, DoClaimReview, DoTakeSlot;
    t := DoClaimReview(cfg, s, 0, me, Answered);
    held := ReviewClaimed(cfg, s, t, me, copy, r, n);
    AtWork(cfg, s, me, r, n);
    Goes(cfg, s, t, ClaimReview(0, Answered));
    var s1, me1 := t, held;
    t := DoTakeSlot(cfg, s1, 0, me1, Answered);
    held := SlotTaken(cfg, s1, t, me1, copy, r, n);
    AtWork(cfg, s1, me1, r, n);
    Goes(cfg, s1, t, TakeSlot(0, Answered));
  }

  /** RUNNING is stored and the agent begun. */
  lemma Runs(cfg: Config, s: State, me: Worker, copy: Record, r: Record, n: nat) returns (t: State, held: Worker, running: Record)
    requires Reachable(cfg, s, me, r, n) && me.phase == Slotted(copy) && CopyOf(copy, r) && r.attempts == n
    ensures Reachable(cfg, t, held, running, n + 1) && t.db.clock == s.db.clock == running.updatedAt
    ensures running.status == Running && running.attempts == n + 1 && running.order == r.order
    ensures held.phase == Executing(running, Resting) && held.claim == me.claim && held.review == me.review && held.slot == me.slot
  {
    hide Occurs, Busy, DoSaveRunning, DoStartRun;
    t := DoSaveRunning(cfg, s, 0, me, Answered, s.db.clock);
    running := RunningStored(cfg, s, t, me, copy, r, n);
    AtWork(cfg, s, me, r, n);
    Goes(cfg, s, t, SaveRunning(0, Answered, s.db.clock));
    var s1, me1 := t, me.(phase := Started(running));
    t := DoStartRun(s1, 0, me1);
    held := RunBegun(cfg, s1, t, me1, running, n);
    AtWork(cfg, s1, me1, running, n);
    Goes(cfg, s1, t, StartRun(0));
  }

  /** The agent returns an error. */
  lemma Ends(cfg: Config, s: State, me: Worker, r: Record, n: nat) returns (t: State, held: Worker)
    requires Reachable(cfg, s, me, r, n) && me.phase == Executing(r, Resting)
    ensures Reachable(cfg, t, held, r, n) && t.db.clock == s.db.clock
    ensures held == me.(phase := Executed(Conclude(r, Crashed(""), s.db.serial, s.db.clock)))
  {
    hide Occurs, Busy, DoFinishRun, Conclude;
    t := DoFinishRun(s, 0, me, Crashed(""), s.db.clock);
    var outcome := RunEnded(cfg, s, t, me, r, n);
    AtWork(cfg, s, me, r, n);
    Goes(cfg, s, t, FinishRun(0, Crashed(""), s.db.clock));
    held := me.(phase := Executed(outcome));
  }

  /** The outcome never reaches Redis; the worker gives its leases back and the job is left RUNNING. */
  lemma Abandons(cfg: Config, s: State, me: Worker, r: Record, n: nat) returns (t: State)
    requires Reachable(cfg, s, me, r, n) && me.phase.Executed? && me.claim.Some? && me.review.Some? && me.slot.Some?
    requires r.attempts == n && r.status == Running && s.db.clock == r.updatedAt && n > 0
    ensures Occurs(cfg, t) && Abandoned(cfg, t, r, n)
  {
    hide Occurs, Busy, Abandoned, DoSaveOutcome, DoReleaseNext, Elapse;
    var s1 := DoSaveOutcome(cfg, s, 0, me, Dropped(false));
    OutcomeLost(cfg, s, s1, me, r, n);
    AtWork(cfg, s, me, r, n);
    Goes(cfg, s, s1, SaveOutcome(0, Dropped(false)));
    t := GivesBack(cfg, s1, me.(phase := Releasing), r, n);
  }

  lemma GivesBack(cfg: Config, s: State, me: Worker, r: Record, n: nat) returns (t: State)
    requires Reachable(cfg, s, me, r, n) && me.phase.Releasing? && me.claim.Some? && me.review.Some? && me.slot.Some?
    requires r.attempts == n && r.status == Running && s.db.clock == r.updatedAt && n > 0
    ensures Occurs(cfg, t) && Abandoned(cfg, t, r, n)
  {
    hide Occurs, Busy, Abandoned, DoReleaseNext, Elapse;
    var s1 := DoReleaseNext(s, 0, me, Answered);
    SlotReleased(cfg, s, s1, me, r, n);
    ReleaseGoes(cfg, s, s1, me, r, n);
    var s2 := DoReleaseNext(s1, 0, me.(slot := None), Answered);
    ReviewReleased(cfg, s1, s2, me.(slot := None), r, n);
    ReleaseGoes(cfg, s1, s2, me.(slot := None), r, n);
    var s3 := DoReleaseNext(s2, 0, me.(slot := None, review := None), Answered);
    ClaimReleased(cfg, s2, s3, me.(slot := None, review := None), r, n);
    ReleaseGoes(cfg, s2, s3, me.(slot := None, review := None), r, n);
    t := Departs(cfg, s3, me.(slot := None, review := None, claim := None), r, n);
  }

  lemma ReleaseGoes(cfg: Config, s: State, s': State, me: Worker, r: Record, n: nat)
    requires Reachable(cfg, s, me, r, n) && me.phase.Releasing? && s' == DoReleaseNext(s, 0, me, Answered)
    ensures Occurs(cfg, s')
  {
    hide Occurs, DoReleaseNext;
    Goes(cfg, s, s', ReleaseNext(0, Answered));
  }

  lemma Departs(cfg: Config, s: State, me: Worker, r: Record, n: nat) returns (t: State)
    requires Reachable(cfg, s, me, r, n) && me.phase.Releasing? && me.claim.None? && me.review.None? && me.slot.None?
    requires r.attempts == n && r.status == Running && s.db.clock == r.updatedAt && n > 0
    ensures Occurs(cfg, t) && Abandoned(cfg, t, r, n)
  {
    hide Occurs, Elapse;
    var gone := DoReleaseNext(s, 0, me, Answered);
    ReleaseGoes(cfg, s, gone, me, r, n);
    assert gone == State(s.db, map[]);
    t := Step(cfg, gone, Tick(s.db.clock + Pause(cfg)));
    Goes(cfg, gone, t, Tick(s.db.clock + Pause(cfg)));
    Left(cfg, s, t, me, r, n);
  }

  // ---- What the queue does not promise -------------------------------------------------------

  lemma FirstSubmission(cfg: Config, order: Order) returns (s: State, r: Record)
    ensures Occurs(cfg, s) && Abandoned(cfg, s, r, 0) && r.order == order
  {
    hide Elapse;
    assert AllPrompt(cfg, INITIAL, []) && INITIAL == Reached(cfg, []) && Plausible(cfg, []);
    r := NewRecord(0, order, Generated(0), NoId, 0);
    var s1 := Step(cfg, INITIAL, Submit(order, "", "", 0, true));
    Goes(cfg, INITIAL, s1, Submit(order, "", "", 0, true));
    var s2 := Step(cfg, s1, Deliver(0, false));
    Goes(cfg, s1, s2, Deliver(0, false));
    assert s1.db.queue == [0] && s2.workers == map[];
    assert OneJob(cfg, s2.db, r, 0);
    s := Step(cfg, s2, Tick(Pause(cfg)));
    Goes(cfg, s2, s, Tick(Pause(cfg)));
    PauseOutlived(cfg, s2.db, r, 0);
    assert s == State(Elapse(s2.db, Pause(cfg)), map[]);
    assert s.db.clock == Pause(cfg) by { ElapsesTo(s2.db, Pause(cfg)); }
  }

  lemma ElapsesTo(db: Db, until: nat)
    requires db.clock <= until
    ensures Elapse(db, until).clock == until
  {
  }

  /** After n failures to store an outcome the job has run n times and is free to be taken over again. */
  lemma {:induction false} AbandonedAgain(cfg: Config, order: Order, n: nat) returns (s: State, r: Record)
    requires cfg.globalLimit > 0 && cfg.scopeLimit > 0
    ensures Occurs(cfg, s) && Abandoned(cfg, s, r, n) && r.order == order
  {
    hide Occurs, Abandoned, Busy, CopyOf;
    if n == 0 {
      s, r := FirstSubmission(cfg, order);
    } else {
      var before, base := AbandonedAgain(cfg, order, n - 1);
      LeftBehind(cfg, before, base, n - 1);
      var t, me, copy := Resumes(cfg, before, base, n - 1);
      t, me := TakesLeases(cfg, t, me, copy, base, n - 1);
      t, me, r := Runs(cfg, t, me, copy, base, n - 1);
      t, me := Ends(cfg, t, me, r, n);
      s := Abandons(cfg, t, me, r, n);
    }
  }

  /**
    Taking a job over never consults MaxRetries: whatever it is, and with every clock right if jobs outlive
    the wait, there is a run in which the agent is called n times for one job, as attempts 1 to n.
   */
  lemma AttemptsHaveNoBound(cfg: Config, order: Order, n: nat) returns (events: seq<Event>)
    requires cfg.globalLimit > 0 && cfg.scopeLimit > 0 && n > 0
    ensures Plausible(cfg, events)
    ensures var db := Reached(cfg, events).db;
      && 0 in db.history && db.history[0] != []
      && Last(db.history[0]).order == order && Last(db.history[0]).status == Running && Last(db.history[0]).attempts == n
      && |db.runs| == n && forall i | 0 <= i < n :: db.runs[i].job == 0 && db.runs[i].attempt == i + 1
  {
    hide Reached, Plausible;
    var s, r := AbandonedAgain(cfg, order, n);
    events :| s == Reached(cfg, events) && Plausible(cfg, events);
    RanSoOften(cfg, s, r, n);
  }

  lemma RanSoOften(cfg: Config, s: State, r: Record, n: nat)
    requires Abandoned(cfg, s, r, n)
    ensures 0 in s.db.history && s.db.history[0] != [] && Last(s.db.history[0]) == r
    ensures |s.db.runs| == n && forall i | 0 <= i < n :: s.db.runs[i].job == 0 && s.db.runs[i].attempt == i + 1
  {
  }

  /** Nor does FAILED lead to the dead-letter stream: a crash right after the save, with every clock right, loses the letter for good. */
  lemma LettersCanBeLost(cfg: Config, order: Order) returns (events: seq<Event>)
    requires cfg.globalLimit > 0 && cfg.scopeLimit > 0
    ensures Plausible(cfg, events) && HasFailed(Reached(cfg, events).db, 0)
    ensures forall more: seq<Event> :: !IsBuried(Play(cfg, Reached(cfg, events), more).db, 0)
  {
    hide Reached, Plausible, Abandoned, Busy, CopyOf, LetterLost, IsBuried, Conclude;
    var k := order.maxRetries;
    var s, r := AbandonedAgain(cfg, order, k);
    LeftBehind(cfg, s, r, k);
    var t, me, copy := Resumes(cfg, s, r, k);
    t, me := TakesLeases(cfg, t, me, copy, r, k);
    t, me, r := Runs(cfg, t, me, copy, r, k);
    GivesUp(r, t.db.serial, t.db.clock);
    t, me := Ends(cfg, t, me, r, k + 1);
    t := CrashesUnburied(cfg, t, me, r, k + 1);
    Failed0(t);
    events :| t == Reached(cfg, events) && Plausible(cfg, events);
    NeverDeadLettered(cfg, events, 0);
  }

  /** An error without a retry left. */
  lemma GivesUp(r: Record, serial: nat, at: nat)
    ensures r.attempts > r.order.maxRetries ==> Conclude(r, Crashed(""), serial, at).status == Failed
    ensures CopyOf(Conclude(r, Crashed(""), serial, at), r)
  {
  }

  lemma Failed0(s: State)
    requires LetterLost(s, 0)
    ensures HasFailed(s.db, 0)
  {
  }

  /** FAILED is stored, and the worker is gone before it writes the letter. */
  lemma CrashesUnburied(cfg: Config, s: State, me: Worker, r: Record, n: nat) returns (t: State)
    requires Reachable(cfg, s, me, r, n) && me.phase.Executed? && me.phase.record.status == Failed
    requires CopyOf(me.phase.record, r)
    ensures Occurs(cfg, t) && LetterLost(t, 0)
  {
    hide Occurs, OnlyLeases, LetterLost;
    var s1 := DoSaveOutcome(cfg, s, 0, me, Answered);
    FailedStored(cfg, s, s1, me, r, n);
    hide DoSaveOutcome;
    Goes(cfg, s, s1, SaveOutcome(0, Answered));
    t := Leave(s1, 0);
    Goes(cfg, s1, t, Crash(0));
    NobodyBuries(t);
  }

  lemma FailedStored(cfg: Config, s: State, s': State, me: Worker, r: Record, n: nat)
    requires Busy(cfg, s, me, r, n) && me.phase.Executed? && me.phase.record.status == Failed && CopyOf(me.phase.record, r)
    requires s' == DoSaveOutcome(cfg, s, 0, me, Answered)
    ensures s'.workers.Keys == {0} && HasFailed(s'.db, 0) && s'.db.deadLetters == []
  {
    hide OnlyLeases;
  }

  lemma NobodyBuries(s: State)
    requires s.workers == map[] && HasFailed(s.db, 0) && s.db.deadLetters == []
    ensures LetterLost(s, 0)
  {
  }
}
