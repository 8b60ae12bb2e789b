/**
  The job queue as a step machine: Redis on one side, any number of workers on the other. Each Lua
  script or Redis command is one atomic step, and a worker may crash between any two of its steps.
  Time is one clock that never goes back; Redis drops a key once the clock is past its deadline.
 */
module JobMachine {
  import opened Options
  import opened JobRecord
  import Leases
  import Semaphore

  /** claimTtl is RunTimeout plus GRACE. Times are in milliseconds. */
  datatype Config = Config(runTimeout: nat, retryBackoff: nat, jobTtl: nat, globalLimit: nat, scopeLimit: nat, maxRetries: nat)

  const GRACE := 30000

  function ClaimTtl(cfg: Config): nat {
    cfg.runTimeout + GRACE
  }

  function Limits(cfg: Config): Semaphore.Limits {
    Semaphore.Limits(cfg.globalLimit, cfg.scopeLimit, ClaimTtl(cfg))
  }

  // ---- Redis ---------------------------------------------------------------------------------

  datatype Stored = Stored(record: Record, expires: nat)
  datatype IndexEntry = IndexEntry(job: nat, expires: nat)
  datatype DeadLetter = DeadLetter(job: nat, executionId: ExecutionId)
  datatype Run = Run(job: nat, version: nat, attempt: nat, executionId: ExecutionId)

  type ReviewKey = (int, int)
  type ScopeKey = (int, string)

  function ReviewOf(r: Record): ReviewKey {
    (r.order.store, r.order.review)
  }

  function ScopeOf(r: Record): ScopeKey {
    (r.order.store, r.order.scope)
  }

  /**
    The keys in Redis. `stream` maps every unacknowledged stream entry to its job and `queue` lists
    those not yet delivered. `serial` feeds fresh ids and tokens. Three fields only remember: `home`
    the scope each slot token was drawn for, `history` the record versions ever stored, `runs` the
    agent runs ever begun.
   */
  datatype Db = Db(
    clock: nat,
    serial: nat,
    records: map<nat, Stored>,
    index: map<string, IndexEntry>,
    claims: map<nat, Leases.Lease>,
    reviews: map<ReviewKey, Leases.Lease>,
    slots: Semaphore.Slots<ScopeKey>,
    stream: map<nat, nat>,
    queue: seq<nat>,
    lastEntry: nat,
    deadLetters: seq<DeadLetter>,
    home: map<nat, ScopeKey>,
    history: map<nat, seq<Record>>,
    runs: seq<Run>)

  const EMPTY_DB := Db(0, 0, map[], map[], map[], map[], Semaphore.Empty<ScopeKey>(), map[], [], 0, [], map[], map[], [])

  function Elapse(db: Db, until: nat): Db {
    if until < db.clock then db else
    db.(clock := until,
        records := map j | j in db.records && until <= db.records[j].expires :: db.records[j],
        index := map e | e in db.index && until <= db.index[e].expires :: db.index[e],
        claims := Leases.Elapse(db.claims, until),
        reviews := Leases.Elapse(db.reviews, until),
        slots := Semaphore.Elapse(db.slots, until))
  }

  /** createJobScript: refuses an id or a source event that already has a live job. */
  function CreateJob(db: Db, ttl: nat, r: Record): (result: (Db, bool, nat)) {
    var source := r.order.source;
    if r.id in db.records then (db, false, r.id)
    else if source != "" && source in db.index && db.index[source].job in db.records then (db, false, db.index[source].job)
    else
      (db.(records := db.records[r.id := Stored(r, db.clock + ttl)],
           index := if source == "" then db.index else db.index[source := IndexEntry(r.id, db.clock + ttl)],
           stream := db.stream[db.lastEntry := r.id], queue := db.queue + [db.lastEntry], lastEntry := db.lastEntry + 1,
           history := db.history[r.id := [r]]),
       true, r.id)
  }

  datatype SaveReply = Saved | Stale | Missing

  /** saveJobScript: compare-and-set on the version; refreshes the record and the index entry it owns. */
  function SaveJob(db: Db, ttl: nat, r: Record, expected: nat): (result: (Db, SaveReply)) {
    var source := r.order.source;
    if r.id !in db.records then (db, Missing)
    else if db.records[r.id].record.version != expected then (db, Stale)
    else
      (db.(records := db.records[r.id := Stored(r, db.clock + ttl)],
           index := if source != "" && (source !in db.index || db.index[source].job == r.id)
                    then db.index[source := IndexEntry(r.id, db.clock + ttl)] else db.index,
           history := db.history[r.id := (if r.id in db.history then db.history[r.id] else []) + [r]]),
       Saved)
  }

  /** XACK drops a delivered entry from the pending list. */
  function AckEntry(db: Db, entry: nat): Db {
    if entry in db.queue then db else db.(stream := map m | m in db.stream && m != entry :: db.stream[m])
  }

  function TakeSerial(db: Db): Db {
    db.(serial := db.serial + 1)
  }

  function ClaimJob(db: Db, cfg: Config, job: nat, token: nat): (Db, bool) {
    var (claims, ok) := Leases.SetNX(db.claims, job, token, db.clock + ClaimTtl(cfg));
    (db.(claims := claims), ok)
  }

  function ClaimReviewKey(db: Db, cfg: Config, key: ReviewKey, token: nat): (Db, bool) {
    var (reviews, ok) := Leases.SetNX(db.reviews, key, token, db.clock + ClaimTtl(cfg));
    (db.(reviews := reviews), ok)
  }

  function RenewClaim(db: Db, cfg: Config, job: nat, token: nat): (Db, bool) {
    var (claims, ok) := Leases.Renew(db.claims, job, token, db.clock + ClaimTtl(cfg));
    (db.(claims := claims), ok)
  }

  function RenewReview(db: Db, cfg: Config, key: ReviewKey, token: nat): (Db, bool) {
    var (reviews, ok) := Leases.Renew(db.reviews, key, token, db.clock + ClaimTtl(cfg));
    (db.(reviews := reviews), ok)
  }

  function AcquireSlot(db: Db, cfg: Config, scope: ScopeKey, token: nat): (Db, bool) {
    var (slots, ok) := Semaphore.Acquire(db.slots, Limits(cfg), scope, token, db.clock);
    (db.(slots := slots, home := db.home[token := scope]), ok)
  }

  function RenewSlot(db: Db, cfg: Config, scope: ScopeKey, token: nat): (Db, bool) {
    var (slots, ok) := Semaphore.Renew(db.slots, Limits(cfg), scope, token, db.clock);
    (db.(slots := slots), ok)
  }

  function ReleaseClaim(db: Db, job: nat, token: nat): Db {
    db.(claims := Leases.Release(db.claims, job, token))
  }

  function ReleaseReview(db: Db, key: ReviewKey, token: nat): Db {
    db.(reviews := Leases.Release(db.reviews, key, token))
  }

  function ReleaseSlot(db: Db, scope: ScopeKey, token: nat): Db {
    db.(slots := Semaphore.Release(db.slots, scope, token))
  }

  function BuryJob(db: Db, r: Record): Db {
    db.(deadLetters := db.deadLetters + [DeadLetter(r.id, r.executionId)])
  }

  function NoteRun(db: Db, r: Record): Db {
    db.(runs := db.runs + [Run(r.id, r.version, r.attempts, r.executionId)])
  }

  // ---- Workers -------------------------------------------------------------------------------

  /** Where the renewal loop stands inside one tick; Cancelled once a renewal failed. */
  datatype Beat = Resting | ClaimRenewed | ReviewRenewed | Cancelled

  /** What the worker does next. A record in a phase is the worker's own copy. */
  datatype Phase =
    | Scanning(scannedAt: nat)
    | Delivered
    | Claimed
    | Fetched(record: Record)
    | Reviewed(record: Record)
    | Slotted(record: Record)
    | Started(record: Record)
    | Executing(record: Record, beat: Beat)
    | Executed(record: Record)
    | Burying(record: Record)
    | Acking
    | Releasing

  /** `at` is when a lease was last taken or renewed with an answer, `since` when it was taken. */
  datatype ReviewHold = ReviewHold(key: ReviewKey, token: nat, since: nat, at: nat)
  datatype SlotHold = SlotHold(scope: ScopeKey, token: nat, at: nat)

  /** `beats` counts the renewals tried so far. */
  datatype Worker = Worker(
    phase: Phase,
    entry: nat,
    job: nat,
    claim: Option<nat>,
    review: Option<ReviewHold>,
    slot: Option<SlotHold>,
    startedAt: nat,
    beats: nat)

  /** A worker outside the map is idle. */
  datatype State = State(db: Db, workers: map<nat, Worker>)

  const INITIAL := State(EMPTY_DB, map[])

  /** A client either reads the reply, or gets an error whether or not the command was applied. */
  datatype Reply = Answered | Dropped(applied: bool)

  datatype Event =
    | Tick(until: nat)
    | Submit(order: Order, execution: string, parent: string, at: nat, applied: bool)
    | Deliver(w: nat, answered: bool)
    | AutoClaim(w: nat, entry: nat, scannedAt: nat)
    | Scan(w: nat, answered: bool)
    | Claim(w: nat, reply: Reply)
    | Fetch(w: nat, answered: bool, at: nat)
    | ClaimReview(w: nat, reply: Reply)
    | TakeSlot(w: nat, reply: Reply)
    | SaveRunning(w: nat, reply: Reply, at: nat)
    | StartRun(w: nat)
    | Heartbeat(w: nat, reply: Reply)
    | FinishRun(w: nat, result: RunResult, at: nat)
    | SaveOutcome(w: nat, reply: Reply)
    | Bury(w: nat, reply: Reply)
    | Ack(w: nat, reply: Reply)
    | ReleaseNext(w: nat, reply: Reply)
    | Crash(w: nat)

  function With(s: State, db: Db, w: nat, worker: Worker): State {
    State(db, s.workers[w := worker])
  }

  function Leave(s: State, w: nat): State {
    s.(workers := map v | v in s.workers && v != w :: s.workers[v])
  }

  /** The database a client leaves behind when its reply is lost. */
  function Outcome(reply: Reply, before: Db, after: Db): Db {
    if reply == Dropped(false) then before else after
  }

  function RequestId(name: string, otherwise: ExecutionId): ExecutionId {
    if name == "" then otherwise else Requested(name)
  }

  function DoSubmit(cfg: Config, s: State, order: Order, execution: string, parent: string, at: nat): State {
    var r := NewRecord(s.db.serial, order, RequestId(execution, Generated(s.db.serial)), RequestId(parent, NoId), at);
    s.(db := CreateJob(TakeSerial(s.db), cfg.jobTtl, r).0)
  }

  function DoDeliver(s: State, w: nat, answered: bool): State {
    if w in s.workers || s.db.queue == [] || s.db.queue[0] !in s.db.stream then s else
    var entry := s.db.queue[0];
    var db := s.db.(queue := s.db.queue[1..]);
    if answered then With(s, db, w, Worker(Delivered, entry, db.stream[entry], None, None, None, 0, 0)) else s.(db := db)
  }

  function DoAutoClaim(s: State, w: nat, entry: nat, scannedAt: nat): State {
    if w in s.workers || entry !in s.db.stream || entry in s.db.queue then s else
    With(s, s.db, w, Worker(Scanning(scannedAt), entry, s.db.stream[entry], None, None, None, 0, 0))
  }

  /** recoverProcessingOnce for one entry. */
  function DoScan(cfg: Config, s: State, w: nat, me: Worker, answered: bool): State
    requires me.phase.Scanning?
  {
    if !answered then Leave(s, w)
    else if me.job !in s.db.records || IsTerminal(s.db.records[me.job].record.status) then
      With(s, s.db, w, me.(phase := Acking))
    else
      var r := s.db.records[me.job].record;
      if r.status.Running? && me.phase.scannedAt < r.updatedAt + ClaimTtl(cfg) then Leave(s, w)
      else With(s, s.db, w, me.(phase := Delivered))
  }

  function DoClaim(cfg: Config, s: State, w: nat, me: Worker, reply: Reply): State {
    var token := s.db.serial;
    var db := TakeSerial(s.db);
    var (after, ok) := ClaimJob(db, cfg, me.job, token);
    if reply.Answered? && ok then With(s, after, w, me.(phase := Claimed, claim := Some(token)))
    else Leave(s.(db := Outcome(reply, db, after)), w)
  }

  function DoFetch(cfg: Config, s: State, w: nat, me: Worker, answered: bool, at: nat): State {
    if !answered then With(s, s.db, w, me.(phase := Releasing))
    else if me.job !in s.db.records || IsTerminal(s.db.records[me.job].record.status) then
      With(s, s.db, w, me.(phase := Acking))
    else
      var r := s.db.records[me.job].record;
      if r.status.Retrying? && s.db.clock < r.updatedAt + cfg.retryBackoff then With(s, s.db, w, me.(phase := Releasing))
      else if r.status.Running? then
        With(s, TakeSerial(s.db), w, me.(phase := Fetched(TakeOver(r, s.db.serial, at))))
      else With(s, s.db, w, me.(phase := Fetched(r)))
  }

  function DoClaimReview(cfg: Config, s: State, w: nat, me: Worker, reply: Reply): State
    requires me.phase.Fetched?
  {
    var token := s.db.serial;
    var db := TakeSerial(s.db);
    var key := ReviewOf(me.phase.record);
    var (after, ok) := ClaimReviewKey(db, cfg, key, token);
    if reply.Answered? && ok then
      With(s, after, w, me.(phase := Reviewed(me.phase.record), review := Some(ReviewHold(key, token, db.clock, db.clock))))
    else With(s, Outcome(reply, db, after), w, me.(phase := Releasing))
  }

  function DoTakeSlot(cfg: Config, s: State, w: nat, me: Worker, reply: Reply): State
    requires me.phase.Reviewed?
  {
    var token := s.db.serial;
    var db := TakeSerial(s.db);
    var scope := ScopeOf(me.phase.record);
    var (after, ok) := AcquireSlot(db, cfg, scope, token);
    if reply.Answered? && ok then
      With(s, after, w, me.(phase := Slotted(me.phase.record), slot := Some(SlotHold(scope, token, db.clock))))
    else With(s, Outcome(reply, db, after), w, me.(phase := Releasing))
  }

  function DoSaveRunning(cfg: Config, s: State, w: nat, me: Worker, reply: Reply, at: nat): State
    requires me.phase.Slotted?
  {
    var base := me.phase.record;
    var r := Begin(base, at).(version := base.version + 1);
    var (after, saved) := SaveJob(s.db, cfg.jobTtl, r, base.version);
    if reply.Answered? && saved.Saved? then With(s, after, w, me.(phase := Started(r)))
    else With(s, Outcome(reply, s.db, after), w, me.(phase := Releasing))
  }

  function DoStartRun(s: State, w: nat, me: Worker): State
    requires me.phase.Started?
  {
    With(s, NoteRun(s.db, me.phase.record), w, me.(phase := Executing(me.phase.record, Resting), startedAt := s.db.clock))
  }

  /** One renewal of the three that make up a tick: job claim, review claim, slot. */
  function DoHeartbeat(cfg: Config, s: State, w: nat, me: Worker, reply: Reply): State
    requires me.phase.Executing? && !me.phase.beat.Cancelled?
    requires me.claim.Some? && me.review.Some? && me.slot.Some?
  {
    var r := me.phase.record;
    var (after, ok) :=
      match me.phase.beat
      case Resting => RenewClaim(s.db, cfg, me.job, me.claim.value)
      case ClaimRenewed => RenewReview(s.db, cfg, me.review.value.key, me.review.value.token)
      case ReviewRenewed => RenewSlot(s.db, cfg, me.slot.value.scope, me.slot.value.token);
    var next :=
      if !(reply.Answered? && ok) then Cancelled
      else if me.phase.beat.Resting? then ClaimRenewed
      else if me.phase.beat.ClaimRenewed? then ReviewRenewed
      else Resting;
    With(s, Outcome(reply, s.db, after), w, Renewed(me, reply.Answered? && ok, s.db.clock).(phase := Executing(r, next), beats := me.beats + 1))
  }

  /** After a good renewal the worker knows its lease is fresh. */
  function Renewed(me: Worker, good: bool, now: nat): Worker
    requires me.phase.Executing? && me.review.Some? && me.slot.Some?
  {
    if good && me.phase.beat.ClaimRenewed? then me.(review := Some(me.review.value.(at := now)))
    else if good && me.phase.beat.ReviewRenewed? then me.(slot := Some(me.slot.value.(at := now)))
    else me
  }

  /** The renewal loop has stopped between ticks; the worker now holds the outcome to be saved. */
  function DoFinishRun(s: State, w: nat, me: Worker, result: RunResult, at: nat): State
    requires me.phase.Executing?
  {
    var r := Conclude(me.phase.record, result, s.db.serial, at);
    With(s, if r.status.Retrying? then TakeSerial(s.db) else s.db, w, me.(phase := Executed(r)))
  }

  function AfterOutcome(r: Record): Phase {
    match r.status
    case Succeeded => Acking
    case Incomplete => Acking
    case Failed => Burying(r)
    case _ => Releasing
  }

  function DoSaveOutcome(cfg: Config, s: State, w: nat, me: Worker, reply: Reply): State
    requires me.phase.Executed?
  {
    var base := me.phase.record;
    var r := base.(version := base.version + 1);
    var (after, saved) := SaveJob(s.db, cfg.jobTtl, r, base.version);
    if reply.Answered? && saved.Saved? then With(s, after, w, me.(phase := AfterOutcome(r)))
    else With(s, Outcome(reply, s.db, after), w, me.(phase := Releasing))
  }

  /** Slot, then review claim, then job claim; a release that fails leaves its key to lapse. */
  function DoReleaseNext(s: State, w: nat, me: Worker, reply: Reply): State {
    if me.slot.Some? then
      With(s, Outcome(reply, s.db, ReleaseSlot(s.db, me.slot.value.scope, me.slot.value.token)), w, me.(slot := None))
    else if me.review.Some? then
      With(s, Outcome(reply, s.db, ReleaseReview(s.db, me.review.value.key, me.review.value.token)), w, me.(review := None))
    else if me.claim.Some? then
      With(s, Outcome(reply, s.db, ReleaseClaim(s.db, me.job, me.claim.value)), w, me.(claim := None))
    else Leave(s, w)
  }

  /** One step; an event that does not fit the worker's phase changes nothing. */
  function Step(cfg: Config, s: State, e: Event): State {
    match e
    case Tick(until) => s.(db := Elapse(s.db, until))
    case Submit(order, execution, parent, at, applied) => if applied then DoSubmit(cfg, s, order, execution, parent, at) else s
    case Deliver(w, answered) => DoDeliver(s, w, answered)
    case AutoClaim(w, entry, scannedAt) => DoAutoClaim(s, w, entry, scannedAt)
    case _ => if e.w in s.workers then WorkerStep(cfg, s, e, s.workers[e.w]) else s
  }

  function WorkerStep(cfg: Config, s: State, e: Event, me: Worker): State
    requires !e.Tick? && !e.Submit?
  {
    match e
    case Scan(w, answered) => if me.phase.Scanning? then DoScan(cfg, s, w, me, answered) else s
    case Claim(w, reply) => if me.phase.Delivered? then DoClaim(cfg, s, w, me, reply) else s
    case Fetch(w, answered, at) => if me.phase.Claimed? then DoFetch(cfg, s, w, me, answered, at) else s
    case ClaimReview(w, reply) => if me.phase.Fetched? then DoClaimReview(cfg, s, w, me, reply) else s
    case TakeSlot(w, reply) => if me.phase.Reviewed? then DoTakeSlot(cfg, s, w, me, reply) else s
    case SaveRunning(w, reply, at) => if me.phase.Slotted? then DoSaveRunning(cfg, s, w, me, reply, at) else s
    case StartRun(w) => if me.phase.Started? then DoStartRun(s, w, me) else s
    case Heartbeat(w, reply) =>
      if me.phase.Executing? && !me.phase.beat.Cancelled? && me.claim.Some? && me.review.Some? && me.slot.Some?
      then DoHeartbeat(cfg, s, w, me, reply) else s
    case FinishRun(w, result, at) =>
      if me.phase.Executing? && (me.phase.beat.Resting? || me.phase.beat.Cancelled?) then DoFinishRun(s, w, me, result, at) else s
    case SaveOutcome(w, reply) => if me.phase.Executed? then DoSaveOutcome(cfg, s, w, me, reply) else s
    case Bury(w, reply) =>
      if me.phase.Burying? then With(s, Outcome(reply, s.db, BuryJob(s.db, me.phase.record)), w, me.(phase := Acking)) else s
    case Ack(w, reply) =>
      if me.phase.Acking? then With(s, Outcome(reply, s.db, AckEntry(s.db, me.entry)), w, me.(phase := Releasing)) else s
    case ReleaseNext(w, reply) => if me.phase.Releasing? then DoReleaseNext(s, w, me, reply) else s
    case Crash(w) => Leave(s, w)
    case _ => s
  }

  function Play(cfg: Config, s: State, events: seq<Event>): State
    decreases |events|
  {
    if events == [] then s else Play(cfg, Step(cfg, s, events[0]), events[1..])
  }

  lemma {:induction false} PlayJoins(cfg: Config, s: State, xs: seq<Event>, ys: seq<Event>)
    ensures Play(cfg, s, xs + ys) == Play(cfg, Play(cfg, s, xs), ys)
    decreases |xs|
  {
    hide Step;
    if xs == [] {
      assert xs + ys == ys;
    } else {
      assert (xs + ys)[1..] == xs[1..] + ys;
      PlayJoins(cfg, Step(cfg, s, xs[0]), xs[1..], ys);
    }
  }
}
