/**
  The service itself: the Lua scripts update Redis in place, and `Process` handles one stream entry
  while other clients keep working. What they do is a run of the step machine.
 */
module JobService {
  import opened Options
  import opened JobRecord
  import opened JobMachine
  import opened Text
  import Leases
  import Semaphore

  /**
    What worker w meets on its way through one entry: the answers of Redis, its own clock readings and the
    result of the agent. Every renewal tick gets three answers.
   */
  datatype World = World(
    w: nat, scannedAt: nat, scanned: bool, claim: Reply, fetched: bool, fetchedAt: nat, review: Reply, slot: Reply,
    starting: Reply, startedAt: nat, ticks: seq<Renewals>, result: RunResult, finishedAt: nat, outcome: Reply,
    burying: Reply, ack: Reply, releaseSlot: Reply, releaseReview: Reply, releaseClaim: Reply)

  datatype Renewals = Renewals(claim: Reply, review: Reply, slot: Reply)

  /** Renewal number n: every tick renews the job claim, the review claim and the slot, in this order. */
  function Answer(ticks: seq<Renewals>, n: nat): Reply
    requires n < 3 * |ticks|
  {
    var tick := ticks[n / 3];
    if n % 3 == 0 then tick.claim else if n % 3 == 1 then tick.review else tick.slot
  }

  /** The one step open to a worker. It renews until a renewal fails or the ticks are over, and releases what it took last first. */
  function Next(world: World, me: Worker): Event {
    var w := world.w;
    match me.phase
    case Scanning(_) => Scan(w, world.scanned)
    case Delivered => Claim(w, world.claim)
    case Claimed => Fetch(w, world.fetched, world.fetchedAt)
    case Fetched(_) => ClaimReview(w, world.review)
    case Reviewed(_) => TakeSlot(w, world.slot)
    case Slotted(_) => SaveRunning(w, world.starting, world.startedAt)
    case Started(_) => StartRun(w)
    case Executing(_, beat) =>
      if beat.Cancelled? || 3 * |world.ticks| <= me.beats then FinishRun(w, world.result, world.finishedAt)
      else Heartbeat(w, Answer(world.ticks, me.beats))
    case Executed(_) => SaveOutcome(w, world.outcome)
    case Burying(_) => Bury(w, world.burying)
    case Acking => Ack(w, world.ack)
    case Releasing =>
      ReleaseNext(w, if me.slot.Some? then world.releaseSlot else if me.review.Some? then world.releaseReview else world.releaseClaim)
  }

  predicate Foreign(e: Event, w: nat) {
    e.Tick? || e.Submit? || e.w != w
  }

  /** Every step worker w takes is the one open to it there; the others do as they like. */
  predicate Obeys(cfg: Config, world: World, s: State, events: seq<Event>)
    decreases |events|
  {
    events == [] ||
    (&& (Foreign(events[0], world.w) || (world.w in s.workers && events[0] == Next(world, s.workers[world.w])))
     && Obeys(cfg, world, Step(cfg, s, events[0]), events[1..]))
  }

  /** b comes about from a by a run of the machine in which worker w takes exactly its own steps, in order. */
  ghost predicate Reaches(cfg: Config, world: World, a: State, b: State) {
    exists events: seq<Event> :: b == Play(cfg, a, events) && Obeys(cfg, world, a, events)
  }

  ghost predicate ByOthers(events: seq<Event>, w: nat) {
    forall e | e in events :: Foreign(e, w)
  }

  lemma {:induction false} ObeysJoins(cfg: Config, world: World, s: State, xs: seq<Event>, ys: seq<Event>)
    requires Obeys(cfg, world, s, xs) && Obeys(cfg, world, Play(cfg, s, xs), ys)
    ensures Obeys(cfg, world, s, xs + ys)
    decreases |xs|
  {
    hide Step, Next;
    if xs == [] {
      assert xs + ys == ys;
    } else {
      assert (xs + ys)[1..] == xs[1..] + ys;
      ObeysJoins(cfg, world, Step(cfg, s, xs[0]), xs[1..], ys);
    }
  }

  lemma ReachesTwice(cfg: Config, world: World, a: State, b: State, c: State)
    requires Reaches(cfg, world, a, b) && Reaches(cfg, world, b, c)
    ensures Reaches(cfg, world, a, c)
  {
    hide Play, Obeys;
    var xs: seq<Event> :| b == Play(cfg, a, xs) && Obeys(cfg, world, a, xs);
    var ys: seq<Event> :| c == Play(cfg, b, ys) && Obeys(cfg, world, b, ys);
    PlayJoins(cfg, a, xs, ys);
    ObeysJoins(cfg, world, a, xs, ys);
    assert c == Play(cfg, a, xs + ys);
  }

  lemma StepReaches(cfg: Config, world: World, a: State, b: State, e: Event)
    requires world.w in a.workers && e == Next(world, a.workers[world.w]) && b == Step(cfg, a, e)
    ensures Reaches(cfg, world, a, b)
  {
    hide Step, Next;
    assert [e][1..] == [];
    assert Play(cfg, a, [e]) == Play(cfg, Step(cfg, a, e), [e][1..]);
    assert Obeys(cfg, world, b, []);
    assert b == Play(cfg, a, [e]) && Obeys(cfg, world, a, [e]);
  }

  predicate Stands(s: State, w: nat, me: Worker) {
    w in s.workers && s.workers[w] == me
  }

  /** A worker that holds its three leases. */
  predicate CanRenew(me: Worker) {
    me.phase.Releasing? && me.claim.Some? && me.review.Some? && me.slot.Some?
  }

  class Service {
    const cfg: Config

    // Redis, and the source of fresh ids and tokens
    var clock: nat
    var serial: nat
    var records: map<nat, Stored>
    var index: map<string, IndexEntry>
    var claims: map<nat, Leases.Lease>
    var reviews: map<ReviewKey, Leases.Lease>
    var slots: Semaphore.Slots<ScopeKey>
    var stream: map<nat, nat>
    var queue: seq<nat>
    var lastEntry: nat
    var deadLetters: seq<DeadLetter>

    // what the machine remembers, and where every worker stands
    ghost var home: map<nat, ScopeKey>
    ghost var history: map<nat, seq<Record>>
    ghost var runs: seq<Run>
    ghost var workers: map<nat, Worker>

    ghost function Redis(): Db
      reads this
    {
      Db(clock, serial, records, index, claims, reviews, slots, stream, queue, lastEntry, deadLetters, home, history, runs)
    }

    ghost function View(): State
      reads this
    {
      State(Redis(), workers)
    }

    constructor (cfg: Config)
      ensures this.cfg == cfg && View() == INITIAL
    {
      this.cfg := cfg;
      clock, serial, lastEntry := 0, 0, 0;
      records, index, claims, reviews, stream := map[], map[], map[], map[], map[];
      slots := Semaphore.Slots(Semaphore.ZSet(map[], 0), map[]);
      queue, deadLetters := [], [];
      home, history, runs, workers := map[], map[], [], map[];
    }

    // ---- Redis scripts -----------------------------------------------------------------------

    method NewId() returns (id: nat)
      modifies this`serial
      ensures id == old(serial) && Redis() == TakeSerial(old(Redis()))
    {
      id := serial;
      serial := serial + 1;
    }

    method CreateJobScript(r: Record) returns (created: bool, existing: nat)
      modifies this`records, this`index, this`stream, this`queue, this`lastEntry, this`history
      ensures (Redis(), created, existing) == CreateJob(old(Redis()), cfg.jobTtl, r)
    {
      if r.id in records {
        return false, r.id;
      }
      var source := r.order.source;
      if source != "" && source in index {
        var owner := index[source].job;
        if owner in records {
          return false, owner;
        }
        // DEL: the entry is rewritten with the new job
      }
      StoreNew(r);
      return true, r.id;
    }

    /** The writes of createJobScript: the record, its index entry and its stream entry. */
    method StoreNew(r: Record)
      requires r.id !in records
      requires r.order.source == "" || r.order.source !in index || index[r.order.source].job !in records
      modifies this`records, this`index, this`stream, this`queue, this`lastEntry, this`history
      ensures (Redis(), true, r.id) == CreateJob(old(Redis()), cfg.jobTtl, r)
    {
      var source := r.order.source;
      assert CreateJob(old(Redis()), cfg.jobTtl, r).1;
      hide Redis;
      SetRecord(r, [r]);
      if source != "" {
        SetIndex(source, r.id);
      }
      Enqueue(r.id);
    }

    method SetRecord(r: Record, ghost versions: seq<Record>)
      modifies this`records, this`history
      ensures Redis() == old(Redis()).(
        records := old(Redis()).records[r.id := Stored(r, old(Redis()).clock + cfg.jobTtl)],
        history := old(Redis()).history[r.id := versions])
    {
      records := records[r.id := Stored(r, clock + cfg.jobTtl)];
      history := history[r.id := versions];
    }

    method SetIndex(source: string, job: nat)
      modifies this`index
      ensures Redis() == old(Redis()).(index := old(Redis()).index[source := IndexEntry(job, old(Redis()).clock + cfg.jobTtl)])
    {
      index := index[source := IndexEntry(job, clock + cfg.jobTtl)];
    }

    /** XADD to the queue. */
    method Enqueue(job: nat)
      modifies this`stream, this`queue, this`lastEntry
      ensures var db := old(Redis());
        Redis() == db.(stream := db.stream[db.lastEntry := job], queue := db.queue + [db.lastEntry], lastEntry := db.lastEntry + 1)
    {
      stream, queue, lastEntry := stream[lastEntry := job], queue + [lastEntry], lastEntry + 1;
    }

    method SaveJobScript(r: Record, expected: nat) returns (reply: SaveReply)
      modifies this`records, this`index, this`history
      ensures (Redis(), reply) == SaveJob(old(Redis()), cfg.jobTtl, r, expected)
    {
      if r.id !in records {
        return Missing;
      }
      if records[r.id].record.version != expected {
        return Stale;
      }
      SetRecord(r, (if r.id in history then history[r.id] else []) + [r]);
      var source := r.order.source;
      if source != "" {
        if source !in index || index[source].job == r.id {
          SetIndex(source, r.id);
        }
      }
      return Saved;
    }

    method SetNXClaim(job: nat, token: nat) returns (ok: bool)
      modifies this`claims
      ensures (Redis(), ok) == ClaimJob(old(Redis()), cfg, job, token)
      ensures (ok <==> job !in old(claims)) && (ok ==> job in claims && claims[job] == Leases.Lease(token, clock + cfg.runTimeout + 30000))
    {
      ok := job !in claims;
      if ok {
        claims := claims[job := Leases.Lease(token, clock + ClaimTtl(cfg))];
      }
    }

    method SetNXReview(key: ReviewKey, token: nat) returns (ok: bool)
      modifies this`reviews
      ensures (Redis(), ok) == ClaimReviewKey(old(Redis()), cfg, key, token)
      ensures (ok <==> key !in old(reviews)) && (ok ==> key in reviews && reviews[key] == Leases.Lease(token, clock + cfg.runTimeout + 30000))
    {
      ok := key !in reviews;
      if ok {
        reviews := reviews[key := Leases.Lease(token, clock + ClaimTtl(cfg))];
      }
    }

    method RenewClaimScript(job: nat, token: nat) returns (ok: bool)
      modifies this`claims
      ensures (Redis(), ok) == RenewClaim(old(Redis()), cfg, job, token)
    {
      if job in claims && claims[job].token == token {
        claims := claims[job := Leases.Lease(token, clock + ClaimTtl(cfg))];
        return true;
      }
      return false;
    }

    method RenewReviewScript(key: ReviewKey, token: nat) returns (ok: bool)
      modifies this`reviews
      ensures (Redis(), ok) == RenewReview(old(Redis()), cfg, key, token)
    {
      if key in reviews && reviews[key].token == token {
        reviews := reviews[key := Leases.Lease(token, clock + ClaimTtl(cfg))];
        return true;
      }
      return false;
    }

    method ReleaseClaimScript(job: nat, token: nat)
      modifies this`claims
      ensures Redis() == ReleaseClaim(old(Redis()), job, token)
      ensures forall j :: j in claims <==> j in old(claims) && (j != job || old(claims)[j].token != token)
    {
      if job in claims && claims[job].token == token {
        claims := map j | j in claims && j != job :: claims[j];
      }
    }

    method ReleaseReviewScript(key: ReviewKey, token: nat)
      modifies this`reviews
      ensures Redis() == ReleaseReview(old(Redis()), key, token)
      ensures forall k :: k in reviews <==> k in old(reviews) && (k != key || old(reviews)[k].token != token)
    {
      if key in reviews && reviews[key].token == token {
        reviews := map k | k in reviews && k != key :: reviews[k];
      }
    }

    method AcquireSlotScript(scope: ScopeKey, token: nat) returns (ok: bool)
      modifies this`slots, this`home
      ensures (Redis(), ok) == AcquireSlot(old(Redis()), cfg, scope, token)
    {
      hide Semaphore.Prune, Semaphore.Put;
      var global := Semaphore.Prune(slots.global, clock);
      var mine := Semaphore.Prune(Semaphore.Scope(slots, scope), clock);
      slots := Semaphore.Slots(global, slots.scopes[scope := mine]);
      home := home[token := scope];
      if |global.scores| >= cfg.globalLimit {
        return false;
      }
      if |mine.scores| >= cfg.scopeLimit {
        return false;
      }
      var deadline := clock + ClaimTtl(cfg);
      slots := Semaphore.Slots(Semaphore.Put(global, token, deadline), slots.scopes[scope := Semaphore.Put(mine, token, deadline)]);
      return true;
    }

    method RenewSlotScript(scope: ScopeKey, token: nat) returns (ok: bool)
      modifies this`slots
      ensures (Redis(), ok) == RenewSlot(old(Redis()), cfg, scope, token)
    {
      if token !in slots.global.scores {
        return false;
      }
      var deadline := clock + ClaimTtl(cfg);
      var mine := Semaphore.Scope(slots, scope);
      slots := Semaphore.Slots(Semaphore.Put(slots.global, token, deadline), slots.scopes[scope := Semaphore.Put(mine, token, deadline)]);
      return true;
    }

    method ReleaseSlotScript(scope: ScopeKey, token: nat)
      modifies this`slots
      ensures Redis() == ReleaseSlot(old(Redis()), scope, token)
      ensures token !in slots.global.scores && token !in Semaphore.Scope(slots, scope).scores
    {
      var mine := Semaphore.Scope(slots, scope);
      slots := Semaphore.Slots(Semaphore.Remove(slots.global, token), slots.scopes[scope := Semaphore.Remove(mine, token)]);
    }

    method XAck(entry: nat)
      modifies this`stream
      ensures Redis() == AckEntry(old(Redis()), entry)
      ensures forall e :: e in stream <==> e in old(stream) && (e != entry || entry in queue)
    {
      if entry !in queue {
        stream := map m | m in stream && m != entry :: stream[m];
      }
    }

    method XAddDeadLetter(r: Record)
      modifies this`deadLetters
      ensures Redis() == BuryJob(old(Redis()), r)
      ensures deadLetters == old(deadLetters) + [DeadLetter(r.id, r.executionId)]
    {
      deadLetters := deadLetters + [DeadLetter(r.id, r.executionId)];
    }

    // ---- Concurrency -------------------------------------------------------------------------

    /**
      Everybody else gets a turn: time passes, jobs are submitted and other workers take steps. The
      body takes none of its own; callers know only what the contract says.
     */
    method Interfere(world: World, ghost start: State)
      requires Reaches(cfg, world, start, View())
      modifies this
      ensures exists events: seq<Event> :: ByOthers(events, world.w) && View() == Play(cfg, old(View()), events)
      ensures Reaches(cfg, world, start, View())
      ensures (world.w in View().workers) == old(world.w in View().workers)
      ensures world.w in View().workers ==> View().workers[world.w] == old(View().workers[world.w])
    {
      assert ByOthers([], world.w) && View() == Play(cfg, old(View()), []);
    }

    /** Records one step of worker w on the way from start. */
    lemma Advance(world: World, start: State, before: State, after: State, e: Event)
      requires Reaches(cfg, world, start, before) && world.w in before.workers && e == Next(world, before.workers[world.w])
      requires after == Step(cfg, before, e)
      ensures Reaches(cfg, world, start, after)
    {
      hide Step, Reaches, Next;
      StepReaches(cfg, world, before, after, e);
      ReachesTwice(cfg, world, start, before, after);
    }

    /** Worker w stands as `me`, after a run of the machine that began in `start`. */
    ghost predicate At(world: World, start: State, me: Worker)
      reads this
    {
      Reaches(cfg, world, start, View()) && Stands(View(), world.w, me)
    }

    lemma NoStep(world: World, s: State)
      ensures Reaches(cfg, world, s, s)
    {
      assert s == Play(cfg, s, []);
    }

    // ---- process, step by step ---------------------------------------------------------------
    // Every method here is one step of the machine. `me` is where the worker stands once it gives up.

    /** Takes the job claim; a worker that fails to get it is gone. */
    method TakeJobClaim(world: World, me: Worker) returns (claimed: bool, held: Worker)
      requires Stands(View(), world.w, me.(phase := Delivered))
      modifies this`serial, this`claims, this`workers
      ensures View() == Step(cfg, old(View()), Claim(world.w, world.claim))
      ensures if claimed then held.claim.Some? && held == me.(claim := held.claim) && Stands(View(), world.w, held.(phase := Claimed))
              else world.w !in View().workers
    {
      hide Leases.SetNX;
      var w, reply := world.w, world.claim;
      held := me;
      var token := NewId();
      claimed := false;
      if reply != Dropped(false) {
        claimed := SetNXClaim(me.job, token);
      }
      claimed := reply.Answered? && claimed;
      if claimed {
        held := me.(claim := Some(token));
        workers := workers[w := held.(phase := Claimed)];
      } else {
        workers := map v | v in workers && v != w :: workers[v];
      }
      assert View() == DoClaim(cfg, old(View()), w, old(workers[w]), reply);
    }

    /** Reads the record: gone or terminal, backing off, left RUNNING by a worker that disappeared, or ready. */
    method ReadRecord(world: World, me: Worker) returns (next: Phase)
      requires Stands(View(), world.w, me.(phase := Claimed))
      modifies this`serial, this`workers
      ensures View() == Step(cfg, old(View()), Fetch(world.w, world.fetched, world.fetchedAt))
      ensures Stands(View(), world.w, me.(phase := next)) && (next.Acking? || next.Releasing? || next.Fetched?)
      ensures next.Acking? <==> world.fetched && (me.job !in records || IsTerminal(records[me.job].record.status))
      ensures next.Fetched? <==>
        && world.fetched && me.job in records && !IsTerminal(records[me.job].record.status)
        && !(records[me.job].record.status == Retrying && clock < records[me.job].record.updatedAt + cfg.retryBackoff)
      ensures next.Fetched? ==> var stored := records[me.job].record;
        if stored.status == Running then
          && next.record.status == Retrying && next.record.attempts == stored.attempts && next.record.parentExecutionId == stored.executionId
          && next.record.executionId == Generated(old(serial)) && next.record.error == LeaseExpired && next.record.order == stored.order
        else next.record == stored
    {
      hide TakeSerial;
      var failedAt := world.fetchedAt;
      if !world.fetched {
        next := Releasing;
      } else if me.job !in records || IsTerminal(records[me.job].record.status) {
        next := Acking;
      } else if records[me.job].record.status.Retrying? && clock < records[me.job].record.updatedAt + cfg.retryBackoff {
        next := Releasing;
      } else {
        var record := records[me.job].record;
        if record.status.Running? {
          record := FinishLatest(record, Failed, LeaseExpired, failedAt);
          record := record.(parentExecutionId := record.executionId);
          var id := NewId();
          record := record.(executionId := Generated(id));
          record := record.(status := Retrying, error := LeaseExpired);
        }
        next := Fetched(record);
      }
      workers := workers[world.w := me.(phase := next)];
      assert View() == DoFetch(cfg, old(View()), world.w, old(workers[world.w]), world.fetched, failedAt);
    }

    method TakeReviewClaim(world: World, me: Worker, record: Record) returns (claimed: bool, held: Worker)
      requires me.phase.Releasing? && Stands(View(), world.w, me.(phase := Fetched(record)))
      modifies this`serial, this`reviews, this`workers
      ensures View() == Step(cfg, old(View()), ClaimReview(world.w, world.review))
      ensures if claimed then held.review.Some? && held == me.(review := held.review) && Stands(View(), world.w, held.(phase := Reviewed(record)))
              else held == me && Stands(View(), world.w, me)
      ensures claimed ==>
        && held.review.value.key == (record.order.store, record.order.review) && held.review.value.since == held.review.value.at == clock
    {
      hide Leases.SetNX;
      var w, reply := world.w, world.review;
      held := me;
      var token := NewId();
      claimed := false;
      if reply != Dropped(false) {
        claimed := SetNXReview(ReviewOf(record), token);
      }
      claimed := reply.Answered? && claimed;
      if claimed {
        held := me.(review := Some(ReviewHold(ReviewOf(record), token, clock, clock)));
      }
      workers := workers[w := if claimed then held.(phase := Reviewed(record)) else me];
      assert View() == DoClaimReview(cfg, old(View()), w, old(workers[w]), reply);
    }

    method TakeConcurrency(world: World, me: Worker, record: Record) returns (allowed: bool, held: Worker)
      requires me.phase.Releasing? && Stands(View(), world.w, me.(phase := Reviewed(record)))
      modifies this`serial, this`slots, this`home, this`workers
      ensures View() == Step(cfg, old(View()), TakeSlot(world.w, world.slot))
      ensures if allowed then held.slot.Some? && held == me.(slot := held.slot) && Stands(View(), world.w, held.(phase := Slotted(record)))
              else held == me && Stands(View(), world.w, me)
      ensures allowed ==> held.slot.value.scope == (record.order.store, record.order.scope) && held.slot.value.at == clock
    {
      hide Semaphore.Acquire;
      var w, reply := world.w, world.slot;
      held := me;
      var token := NewId();
      allowed := false;
      if reply != Dropped(false) {
        allowed := AcquireSlotScript(ScopeOf(record), token);
      }
      allowed := reply.Answered? && allowed;
      if allowed {
        held := me.(slot := Some(SlotHold(ScopeOf(record), token, clock)));
      }
      workers := workers[w := if allowed then held.(phase := Slotted(record)) else me];
      assert View() == DoTakeSlot(cfg, old(View()), w, old(workers[w]), reply);
    }

    /** Stores RUNNING with one attempt more. */
    method StoreRunning(world: World, me: Worker, copy: Record) returns (record: Record, saved: bool)
      requires me.phase.Releasing? && Stands(View(), world.w, me.(phase := Slotted(copy)))
      modifies this`records, this`index, this`history, this`workers
      ensures View() == Step(cfg, old(View()), SaveRunning(world.w, world.starting, world.startedAt))
      ensures Stands(View(), world.w, if saved then me.(phase := Started(record)) else me)
      ensures saved ==>
        && record.status == Running && record.attempts == copy.attempts + 1 && record.version == copy.version + 1
        && record.updatedAt == world.startedAt && record.startedAt == Some(world.startedAt) && record.error == NoError
        && record.id == copy.id && record.order == copy.order && record.executionId == copy.executionId
    {
      hide SaveJob;
      var w, now := world.w, world.startedAt;
      record := copy.(status := Running);
      record := record.(attempts := record.attempts + 1, updatedAt := now, startedAt := Some(now), error := NoError);
      record := record.(executions := record.executions
        + [ExecutionAttempt(record.attempts, record.executionId, record.parentExecutionId, Running, NoError, now, None)]);
      record, saved := Save(record, world.starting);
      workers := workers[w := if saved then me.(phase := Started(record)) else me];
      assert View() == DoSaveRunning(cfg, old(View()), w, old(workers[w]), world.starting, now);
    }

    /** save: compare-and-set against the version read; the copy keeps its version unless the save is confirmed. */
    method Save(record: Record, reply: Reply) returns (after: Record, saved: bool)
      modifies this`records, this`index, this`history
      ensures var (db, code) := SaveJob(old(Redis()), cfg.jobTtl, record.(version := record.version + 1), record.version);
        && saved == (reply.Answered? && code.Saved?)
        && Redis() == Outcome(reply, old(Redis()), db)
        && after == if saved then record.(version := record.version + 1) else record
    {
      var expected := record.version;
      after := record.(version := expected + 1);
      var code := Missing;
      if reply != Dropped(false) {
        code := SaveJobScript(after, expected);
      }
      saved := reply.Answered? && code.Saved?;
      if !saved {
        after := after.(version := expected);
      }
    }

    method BeginRun(world: World, me: Worker, running: Record) returns (held: Worker)
      requires Stands(View(), world.w, me.(phase := Started(running)))
      modifies this`runs, this`workers
      ensures View() == Step(cfg, old(View()), StartRun(world.w))
      ensures held == me.(startedAt := clock) && Stands(View(), world.w, held.(phase := Executing(running, Resting)))
    {
      held := me.(startedAt := clock);
      runs := runs + [Run(running.id, running.version, running.attempts, running.executionId)];
      workers := workers[world.w := held.(phase := Executing(running, Resting))];
      assert View() == DoStartRun(old(View()), world.w, old(workers[world.w]));
    }

    method RenewJobClaim(world: World, me: Worker, running: Record, tick: nat) returns (alive: bool, held: Worker)
      requires tick < |world.ticks| && CanRenew(me) && Stands(View(), world.w, me.(phase := Executing(running, Resting)))
      modifies this`claims, this`workers
      ensures View() == Step(cfg, old(View()), Heartbeat(world.w, world.ticks[tick].claim))
      ensures CanRenew(held) && held.beats == me.beats + 1
      ensures Stands(View(), world.w, held.(phase := Executing(running, if alive then ClaimRenewed else Cancelled)))
    {
      hide Leases.Renew;
      var w, reply, ok := world.w, world.ticks[tick].claim, false;
      if reply != Dropped(false) {
        ok := RenewClaimScript(me.job, me.claim.value);
      }
      alive := reply.Answered? && ok;
      held := me.(beats := me.beats + 1);
      workers := workers[w := held.(phase := Executing(running, if alive then ClaimRenewed else Cancelled))];
      assert View() == DoHeartbeat(cfg, old(View()), w, old(workers[w]), reply);
    }

    method RenewReviewClaim(world: World, me: Worker, running: Record, tick: nat) returns (alive: bool, held: Worker)
      requires tick < |world.ticks| && CanRenew(me) && Stands(View(), world.w, me.(phase := Executing(running, ClaimRenewed)))
      modifies this`reviews, this`workers
      ensures View() == Step(cfg, old(View()), Heartbeat(world.w, world.ticks[tick].review))
      ensures CanRenew(held) && held.beats == me.beats + 1
      ensures Stands(View(), world.w, held.(phase := Executing(running, if alive then ReviewRenewed else Cancelled)))
    {
      hide Leases.Renew;
      var w, reply, ok := world.w, world.ticks[tick].review, false;
      if reply != Dropped(false) {
        ok := RenewReviewScript(me.review.value.key, me.review.value.token);
      }
      alive := reply.Answered? && ok;
      held := me.(beats := me.beats + 1);
      if alive {
        held := held.(review := Some(me.review.value.(at := clock)));
      }
      workers := workers[w := held.(phase := Executing(running, if alive then ReviewRenewed else Cancelled))];
      assert View() == DoHeartbeat(cfg, old(View()), w, old(workers[w]), reply);
    }

    method RenewConcurrency(world: World, me: Worker, running: Record, tick: nat) returns (alive: bool, held: Worker)
      requires tick < |world.ticks| && CanRenew(me) && Stands(View(), world.w, me.(phase := Executing(running, ReviewRenewed)))
      modifies this`slots, this`workers
      ensures View() == Step(cfg, old(View()), Heartbeat(world.w, world.ticks[tick].slot))
      ensures CanRenew(held) && held.beats == me.beats + 1
      ensures Stands(View(), world.w, held.(phase := Executing(running, if alive then Resting else Cancelled)))
    {
      hide Semaphore.Renew;
      var w, reply, ok := world.w, world.ticks[tick].slot, false;
      if reply != Dropped(false) {
        ok := RenewSlotScript(me.slot.value.scope, me.slot.value.token);
      }
      alive := reply.Answered? && ok;
      held := me.(beats := me.beats + 1);
      if alive {
        held := held.(slot := Some(me.slot.value.(at := clock)));
      }
      workers := workers[w := held.(phase := Executing(running, if alive then Resting else Cancelled))];
      assert View() == DoHeartbeat(cfg, old(View()), w, old(workers[w]), reply);
    }

    /** The end of a run: SUCCEEDED or INCOMPLETE with its result, RETRYING under a fresh execution id, or FAILED. */
    method ConcludeRun(running: Record, result: RunResult, at: nat) returns (record: Record)
      modifies this`serial
      ensures record == Conclude(running, result, old(serial), at)
      ensures record.updatedAt == at && record.attempts == running.attempts && record.id == running.id && record.order == running.order
      ensures match result
              case Ran(completed) => record.status == (if completed then Succeeded else Incomplete) && record.completed == Some(completed)
              case Crashed(message) =>
                record.status == (if running.attempts <= running.order.maxRetries then Retrying else Failed) && record.error == RunError(message)
      ensures record.finishedAt == if record.status == Retrying then running.finishedAt else Some(at)
      ensures Redis() == if record.status.Retrying? then TakeSerial(old(Redis())) else old(Redis())
    {
      record := running;
      if result.Ran? {
        record := record.(status := Succeeded);
        if !result.completed {
          record := record.(status := Incomplete);
        }
        record := record.(completed := Some(result.completed), updatedAt := at, finishedAt := Some(at));
        record := FinishLatest(record, record.status, NoError, at);
        return;
      }
      record := record.(error := RunError(result.message));
      record := FinishLatest(record, Failed, record.error, at);
      if record.attempts <= record.order.maxRetries {
        record := record.(parentExecutionId := record.executionId);
        var id := NewId();
        record := record.(executionId := Generated(id));
        record := record.(status := Retrying, updatedAt := at);
        return;
      }
      record := record.(status := Failed, updatedAt := at, finishedAt := Some(at));
    }

    method EndRun(world: World, me: Worker, running: Record, alive: bool) returns (record: Record)
      requires Stands(View(), world.w, me.(phase := Executing(running, if alive then Resting else Cancelled)))
      modifies this`serial, this`workers
      ensures View() == Step(cfg, old(View()), FinishRun(world.w, world.result, world.finishedAt))
      ensures Stands(View(), world.w, me.(phase := Executed(record)))
    {
      hide Conclude;
      record := ConcludeRun(running, world.result, world.finishedAt);
      workers := workers[world.w := me.(phase := Executed(record))];
      assert View() == DoFinishRun(old(View()), world.w, old(workers[world.w]), world.result, world.finishedAt);
    }

    /** Only a confirmed save leads on to the dead letter or the acknowledgement. */
    method StoreOutcome(world: World, me: Worker, outcome: Record) returns (record: Record, saved: bool)
      requires me.phase.Releasing? && Stands(View(), world.w, me.(phase := Executed(outcome)))
      modifies this`records, this`index, this`history, this`workers
      ensures View() == Step(cfg, old(View()), SaveOutcome(world.w, world.outcome))
      ensures Stands(View(), world.w, if saved then me.(phase := AfterOutcome(record)) else me)
    {
      hide SaveJob;
      var w := world.w;
      record, saved := Save(outcome, world.outcome);
      workers := workers[w := if saved then me.(phase := AfterOutcome(record)) else me];
      assert View() == DoSaveOutcome(cfg, old(View()), w, old(workers[w]), world.outcome);
    }

    method WriteDeadLetter(world: World, me: Worker, record: Record)
      requires Stands(View(), world.w, me.(phase := Burying(record)))
      modifies this`deadLetters, this`workers
      ensures View() == Step(cfg, old(View()), Bury(world.w, world.burying)) && Stands(View(), world.w, me.(phase := Acking))
    {
      if world.burying != Dropped(false) {
        XAddDeadLetter(record);
      }
      workers := workers[world.w := me.(phase := Acking)];
      assert View() == WorkerStep(cfg, old(View()), Bury(world.w, world.burying), old(workers[world.w]));
    }

    method Acknowledge(world: World, me: Worker)
      requires me.phase.Releasing? && Stands(View(), world.w, me.(phase := Acking))
      modifies this`stream, this`workers
      ensures View() == Step(cfg, old(View()), Ack(world.w, world.ack)) && Stands(View(), world.w, me)
    {
      if world.ack != Dropped(false) {
        XAck(me.entry);
      }
      workers := workers[world.w := me];
      assert View() == WorkerStep(cfg, old(View()), Ack(world.w, world.ack), old(workers[world.w]));
    }

    /** A lease whose release fails is left to lapse. */
    method GiveBackSlot(world: World, me: Worker) returns (held: Worker)
      requires me.phase.Releasing? && me.slot.Some? && Stands(View(), world.w, me)
      modifies this`slots, this`workers
      ensures View() == Step(cfg, old(View()), ReleaseNext(world.w, world.releaseSlot))
      ensures held == me.(slot := None) && Stands(View(), world.w, held)
    {
      hide Semaphore.Release;
      if world.releaseSlot != Dropped(false) {
        ReleaseSlotScript(me.slot.value.scope, me.slot.value.token);
      }
      held := me.(slot := None);
      workers := workers[world.w := held];
      assert View() == DoReleaseNext(old(View()), world.w, old(workers[world.w]), world.releaseSlot);
    }

    method GiveBackReview(world: World, me: Worker) returns (held: Worker)
      requires me.phase.Releasing? && me.slot.None? && me.review.Some? && Stands(View(), world.w, me)
      modifies this`reviews, this`workers
      ensures View() == Step(cfg, old(View()), ReleaseNext(world.w, world.releaseReview))
      ensures held == me.(review := None) && Stands(View(), world.w, held)
    {
      hide Leases.Release;
      if world.releaseReview != Dropped(false) {
        ReleaseReviewScript(me.review.value.key, me.review.value.token);
      }
      held := me.(review := None);
      workers := workers[world.w := held];
      assert View() == DoReleaseNext(old(View()), world.w, old(workers[world.w]), world.releaseReview);
    }

    method GiveBackClaim(world: World, me: Worker) returns (held: Worker)
      requires me.phase.Releasing? && me.slot.None? && me.review.None? && me.claim.Some? && Stands(View(), world.w, me)
      modifies this`claims, this`workers
      ensures View() == Step(cfg, old(View()), ReleaseNext(world.w, world.releaseClaim))
      ensures held == me.(claim := None) && Stands(View(), world.w, held)
    {
      hide Leases.Release;
      if world.releaseClaim != Dropped(false) {
        ReleaseClaimScript(me.job, me.claim.value);
      }
      held := me.(claim := None);
      workers := workers[world.w := held];
      assert View() == DoReleaseNext(old(View()), world.w, old(workers[world.w]), world.releaseClaim);
    }

    method Depart(world: World, me: Worker)
      requires me.phase.Releasing? && me.slot.None? && me.review.None? && me.claim.None? && Stands(View(), world.w, me)
      modifies this`workers
      ensures View() == Step(cfg, old(View()), ReleaseNext(world.w, world.releaseClaim)) && world.w !in View().workers
    {
      workers := map v | v in workers && v != world.w :: workers[v];
      assert View() == DoReleaseNext(old(View()), world.w, old(workers[world.w]), world.releaseClaim);
    }

    // ---- process, as a whole -----------------------------------------------------------------

    /**
      Handles one delivered entry. Whatever the others do meanwhile, the outcome is a run of the machine
      in which worker w takes, in order, exactly the steps its answers lead to, down to its last release.
     */
    method Process(world: World, entry: nat, job: nat)
      requires Stands(View(), world.w, Worker(Delivered, entry, job, None, None, None, 0, 0))
      modifies this
      ensures Reaches(cfg, world, old(View()), View()) && world.w !in View().workers
    {
      hide View, Redis, Step, Play, ByOthers, Reaches;
      ghost var start := View();
      NoStep(world, start);
      var me := Worker(Releasing, entry, job, None, None, None, 0, 0);
      Interfere(world, start);
      ghost var before := View();
      var claimed;
      claimed, me := TakeJobClaim(world, me);
      Advance(world, start, before, View(), Claim(world.w, world.claim));
      if !claimed {
        return;
      }
      Interfere(world, start);
      before := View();
      var next := ReadRecord(world, me);
      Advance(world, start, before, View(), Fetch(world.w, world.fetched, world.fetchedAt));
      if next.Acking? {
        AckAndStop(world, start, me);
      } else if next.Fetched? {
        me := HandleFetched(world, start, me, next.record);
      }
      ReleaseAll(world, start, me);
    }

    /** Takes the review claim, then the slot, then stores RUNNING; only if that was confirmed the agent runs. */
    method HandleFetched(world: World, ghost start: State, me: Worker, record: Record) returns (holding: Worker)
      requires me.phase.Releasing? && me.claim.Some? && me.review.None? && me.slot.None? && me.beats == 0
      requires At(world, start, me.(phase := Fetched(record)))
      modifies this
      ensures holding.phase.Releasing? && At(world, start, holding)
    {
      hide View, Redis, Step, Play, ByOthers, Reaches;
      Interfere(world, start);
      ghost var before := View();
      var ok;
      ok, holding := TakeReviewClaim(world, me, record);
      Advance(world, start, before, View(), ClaimReview(world.w, world.review));
      if ok {
        holding := HandleReviewed(world, start, holding, record);
      }
    }

    method HandleReviewed(world: World, ghost start: State, me: Worker, record: Record) returns (holding: Worker)
      requires me.phase.Releasing? && me.claim.Some? && me.review.Some? && me.slot.None? && me.beats == 0
      requires At(world, start, me.(phase := Reviewed(record)))
      modifies this
      ensures holding.phase.Releasing? && At(world, start, holding)
    {
      hide View, Redis, Step, Play, ByOthers, Reaches;
      Interfere(world, start);
      ghost var before := View();
      var ok;
      ok, holding := TakeConcurrency(world, me, record);
      Advance(world, start, before, View(), TakeSlot(world.w, world.slot));
      if !ok {
        return;
      }
      Interfere(world, start);
      before := View();
      var running;
      running, ok := StoreRunning(world, holding, record);
      Advance(world, start, before, View(), SaveRunning(world.w, world.starting, world.startedAt));
      if ok {
        holding := RunAgent(world, start, holding, running);
      }
    }

    /** RunExecution under lease renewal, then the outcome. */
    method RunAgent(world: World, ghost start: State, me: Worker, running: Record) returns (holding: Worker)
      requires CanRenew(me) && me.beats == 0 && At(world, start, me.(phase := Started(running)))
      modifies this
      ensures holding.phase.Releasing? && At(world, start, holding)
    {
      hide View, Redis, Step, Play, ByOthers, Reaches;
      Interfere(world, start);
      ghost var before := View();
      holding := BeginRun(world, me, running);
      Advance(world, start, before, View(), StartRun(world.w));
      var ticks, alive := 0, true;
      while ticks < |world.ticks| && alive
        invariant ticks <= |world.ticks| && (alive ==> holding.beats == 3 * ticks)
        invariant CanRenew(holding)
        invariant At(world, start, holding.(phase := Executing(running, if alive then Resting else Cancelled)))
      {
        alive, holding := RenewLeases(world, start, holding, running, ticks);
        ticks := ticks + 1;
      }
      Interfere(world, start);
      before := View();
      var outcome := EndRun(world, holding, running, alive);
      Advance(world, start, before, View(), FinishRun(world.w, world.result, world.finishedAt));
      Settle(world, start, holding, outcome);
    }

    /** One tick of the renewal loop: job claim, review claim, slot; the first failure cancels the run. */
    method RenewLeases(world: World, ghost start: State, me: Worker, running: Record, tick: nat) returns (alive: bool, held: Worker)
      requires tick < |world.ticks| && me.beats == 3 * tick && CanRenew(me)
      requires At(world, start, me.(phase := Executing(running, Resting)))
      modifies this
      ensures CanRenew(held) && (alive ==> held.beats == 3 * tick + 3)
      ensures At(world, start, held.(phase := Executing(running, if alive then Resting else Cancelled)))
    {
      hide View, Redis, Step, Play, ByOthers, Reaches;
      Interfere(world, start);
      ghost var before := View();
      alive, held := RenewJobClaim(world, me, running, tick);
      Advance(world, start, before, View(), Heartbeat(world.w, world.ticks[tick].claim));
      if alive {
        alive, held := RenewReviewAndSlot(world, start, held, running, tick);
      }
    }

    method RenewReviewAndSlot(world: World, ghost start: State, me: Worker, running: Record, tick: nat) returns (alive: bool, held: Worker)
      requires tick < |world.ticks| && me.beats == 3 * tick + 1 && CanRenew(me)
      requires At(world, start, me.(phase := Executing(running, ClaimRenewed)))
      modifies this
      ensures CanRenew(held) && (alive ==> held.beats == 3 * tick + 3)
      ensures At(world, start, held.(phase := Executing(running, if alive then Resting else Cancelled)))
    {
      hide View, Redis, Step, Play, ByOthers, Reaches;
      Interfere(world, start);
      ghost var before := View();
      alive, held := RenewReviewClaim(world, me, running, tick);
      Advance(world, start, before, View(), Heartbeat(world.w, world.ticks[tick].review));
      if alive {
        Interfere(world, start);
        before := View();
        alive, held := RenewConcurrency(world, held, running, tick);
        Advance(world, start, before, View(), Heartbeat(world.w, world.ticks[tick].slot));
      }
    }

    /** The outcome is stored; a confirmed FAILED is dead-lettered, and a confirmed end acknowledged whether or not that worked. */
    method Settle(world: World, ghost start: State, me: Worker, outcome: Record)
      requires me.phase.Releasing? && At(world, start, me.(phase := Executed(outcome)))
      modifies this
      ensures At(world, start, me)
    {
      hide View, Redis, Step, Play, ByOthers, Reaches;
      Interfere(world, start);
      ghost var before := View();
      var record, saved := StoreOutcome(world, me, outcome);
      Advance(world, start, before, View(), SaveOutcome(world.w, world.outcome));
      if !saved {
        return;
      }
      if record.status.Failed? {
        Interfere(world, start);
        before := View();
        WriteDeadLetter(world, me, record);
        Advance(world, start, before, View(), Bury(world.w, world.burying));
        AckAndStop(world, start, me);
      } else if record.status.Succeeded? || record.status.Incomplete? {
        AckAndStop(world, start, me);
      }
    }

    method AckAndStop(world: World, ghost start: State, me: Worker)
      requires me.phase.Releasing? && At(world, start, me.(phase := Acking))
      modifies this
      ensures At(world, start, me)
    {
      hide View, Redis, Step, Play, ByOthers, Reaches;
      Interfere(world, start);
      ghost var before := View();
      Acknowledge(world, me);
      Advance(world, start, before, View(), Ack(world.w, world.ack));
    }

    /** The deferred releases, last taken first. */
    method ReleaseAll(world: World, ghost start: State, me: Worker)
      requires me.phase.Releasing? && At(world, start, me)
      modifies this
      ensures Reaches(cfg, world, start, View()) && world.w !in View().workers
    {
      hide View, Redis, Step, Play, ByOthers, Reaches;
      var holding := me;
      ghost var before;
      if holding.slot.Some? {
        Interfere(world, start);
        before := View();
        holding := GiveBackSlot(world, holding);
        Advance(world, start, before, View(), ReleaseNext(world.w, world.releaseSlot));
      }
      if holding.review.Some? {
        Interfere(world, start);
        before := View();
        holding := GiveBackReview(world, holding);
        Advance(world, start, before, View(), ReleaseNext(world.w, world.releaseReview));
      }
      if holding.claim.Some? {
        Interfere(world, start);
        before := View();
        holding := GiveBackClaim(world, holding);
        Advance(world, start, before, View(), ReleaseNext(world.w, world.releaseClaim));
      }
      before := View();
      Depart(world, holding);
      Advance(world, start, before, View(), ReleaseNext(world.w, world.releaseClaim));
    }

    // ---- recovery and submission -------------------------------------------------------------

    /** What recoverProcessingOnce makes of one claimed entry: acknowledge it, leave it alone, or process it. */
    method Screen(world: World, me: Worker) returns (next: Option<Phase>)
      requires me.phase.Releasing? && Stands(View(), world.w, me.(phase := Scanning(world.scannedAt)))
      modifies this`workers
      ensures View() == Step(cfg, old(View()), Scan(world.w, world.scanned))
      ensures match next
              case None => world.w !in View().workers
              case Some(phase) => (phase.Acking? || phase.Delivered?) && Stands(View(), world.w, me.(phase := phase))
      ensures next == Some(Acking) <==> world.scanned && (me.job !in records || IsTerminal(records[me.job].record.status))
      ensures next == Some(Delivered) <==>
        && world.scanned && me.job in records && !IsTerminal(records[me.job].record.status)
        && (records[me.job].record.status == Running ==> records[me.job].record.updatedAt + cfg.runTimeout + 30000 <= world.scannedAt)
    {
      var w, scannedAt := world.w, world.scannedAt;
      if !world.scanned {
        next := None;
      } else if me.job !in records || IsTerminal(records[me.job].record.status) {
        next := Some(Acking);
      } else if records[me.job].record.status.Running? && scannedAt < records[me.job].record.updatedAt + ClaimTtl(cfg) {
        next := None;
      } else {
        next := Some(Delivered);
      }
      if next.Some? {
        workers := workers[w := me.(phase := next.value)];
      } else {
        workers := map v | v in workers && v != w :: workers[v];
      }
      assert View() == DoScan(cfg, old(View()), w, old(workers[w]), world.scanned);
    }

    method TakeOverEntry(world: World, entry: nat) returns (me: Worker)
      requires world.w !in workers && entry in stream && entry !in queue
      modifies this`workers
      ensures View() == Step(cfg, old(View()), AutoClaim(world.w, entry, world.scannedAt))
      ensures me == Worker(Releasing, entry, me.job, None, None, None, 0, 0)
      ensures Stands(View(), world.w, me.(phase := Scanning(world.scannedAt)))
    {
      me := Worker(Releasing, entry, stream[entry], None, None, None, 0, 0);
      workers := workers[world.w := me.(phase := Scanning(world.scannedAt))];
      assert View() == DoAutoClaim(old(View()), world.w, entry, world.scannedAt);
    }

    /** recoverProcessingOnce, for one entry that XAUTOCLAIM handed over. */
    method Recover(world: World, entry: nat)
      requires world.w !in workers && entry in stream && entry !in queue
      modifies this
      ensures Reaches(cfg, world, Step(cfg, old(View()), AutoClaim(world.w, entry, world.scannedAt)), View())
      ensures world.w !in View().workers
    {
      hide View, Redis, Step, Play, ByOthers, Reaches;
      var me := TakeOverEntry(world, entry);
      ghost var start := View();
      NoStep(world, start);
      Interfere(world, start);
      ghost var before := View();
      var next := Screen(world, me);
      Advance(world, start, before, View(), Scan(world.w, world.scanned));
      if next == Some(Acking) {
        AckAndStop(world, start, me);
        ReleaseAll(world, start, me);
      } else if next == Some(Delivered) {
        ghost var handing := View();
        Process(world, entry, me.job);
        ReachesTwice(cfg, world, start, handing, View());
      }
    }

    /**
      Submit. A refused request changes nothing; an accepted one ends with the id of a live job of its
      source event: a new one, PENDING at version 1 with its stream entry, or the one already there.
     */
    method Submit(task: string, store: int, review: int, evidenceVersion: int, scope: string, source: string,
                  maxRetries: Option<int>, execution: string, parent: string, at: nat, reply: Reply) returns (id: Option<nat>)
      modifies this`serial, this`records, this`index, this`stream, this`queue, this`lastEntry, this`history
      ensures id.Some? <==> Trim(task) != "" && review > 0 && store > 0 && evidenceVersion > 0 && reply.Answered?
      ensures Trim(task) == "" || review <= 0 || store <= 0 || evidenceVersion <= 0 ==> View() == old(View())
      ensures Trim(task) != "" && review > 0 && store > 0 && evidenceVersion > 0 ==>
        View() == Step(cfg, old(View()), Event.Submit(
          Order(store, review, scope, Trim(source), if maxRetries.Some? && maxRetries.value >= 0 then maxRetries.value else cfg.maxRetries),
          Trim(execution), Trim(parent), at, reply != Dropped(false)))
      ensures id.Some? ==> id.value in records
      ensures id.Some? && old(serial !in records) ==>
        if id.value == old(serial) then
          && records[id.value].record.status == Pending && records[id.value].record.version == 1
          && records[id.value].record.order.store == store && records[id.value].record.order.review == review
          && records[id.value].record.order.scope == scope && records[id.value].record.order.source == Trim(source)
          && records[id.value].record.order.maxRetries == (if maxRetries.Some? && maxRetries.value >= 0 then maxRetries.value else cfg.maxRetries)
          && records[id.value].record.executionId == (if Trim(execution) != "" then Requested(Trim(execution)) else Generated(id.value))
          && records[id.value].record.parentExecutionId == (if Trim(parent) != "" then Requested(Trim(parent)) else NoId)
          && records[id.value].record.attempts == 0 && records[id.value].record.updatedAt == at
          && records[id.value].expires == clock + cfg.jobTtl
          && queue == old(queue) + [old(lastEntry)] && stream == old(stream)[old(lastEntry) := id.value]
        else
          && records == old(records) && queue == old(queue) && stream == old(stream)
          && Trim(source) != "" && Trim(source) in index && index[Trim(source)].job == id.value
    {
      hide Trim;
      if Trim(task) == "" || review <= 0 || store <= 0 || evidenceVersion <= 0 {
        return None;
      }
      var retries := cfg.maxRetries;
      if maxRetries.Some? && maxRetries.value >= 0 {
        retries := maxRetries.value;
      }
      if reply == Dropped(false) {
        return None;
      }
      var order := Order(store, review, scope, Trim(source), retries);
      var fresh0 := NewId();
      var record := NewRecord(fresh0, order, RequestId(Trim(execution), Generated(fresh0)), RequestId(Trim(parent), NoId), at);
      var created, existing := CreateJobScript(record);
      if reply.Dropped? {
        return None;
      }
      id := Some(existing);
    }
  }
}
