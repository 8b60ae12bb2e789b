/** No job is lost: whatever is still to be done has a stream entry that nobody has acknowledged. */
module JobStream {
  import opened Options
  import opened JobRecord
  import opened JobMachine
  import opened JobHistory
  import Leases
  import Semaphore

  ghost predicate Waiting(db: Db, j: nat) {
    j in db.records && !IsTerminal(db.records[j].record.status)
  }

  ghost predicate Queued(db: Db, j: nat) {
    exists m :: m in db.stream && db.stream[m] == j
  }

  ghost predicate NoJobLost(db: Db) {
    forall j | Waiting(db, j) :: Queued(db, j)
  }

  /** Nothing that was created before comes back to life, and nothing terminal becomes work again. */
  lemma WaitingBefore(db: Db, db': Db, j: nat)
    requires HistoryInv(db) && HistoryInv(db') && Grows(db, db')
    requires j in db.history && Waiting(db', j)
    ensures Waiting(db, j)
  {
    TerminalIsLast(db, db', j);
  }

  lemma SameStream(s: State, s': State, w: nat)
    requires HistoryInv(s.db) && HistoryInv(s'.db) && Grows(s.db, s'.db)
    requires EntriesInv(s) && NoJobLost(s.db)
    requires s'.db.stream == s.db.stream && s'.db.lastEntry == s.db.lastEntry
    requires s'.db.history.Keys == s.db.history.Keys
    requires forall v | v in s'.workers && v != w :: v in s.workers && s'.workers[v] == s.workers[v]
    requires w in s'.workers ==>
      (w in s.workers && s'.workers[w].entry == s.workers[w].entry && s'.workers[w].job == s.workers[w].job)
      || (s'.workers[w].entry in s.db.stream && s.db.stream[s'.workers[w].entry] == s'.workers[w].job)
    ensures EntriesInv(s') && NoJobLost(s'.db)
  {
    hide GoodHistory;
    forall j | Waiting(s'.db, j) ensures Queued(s'.db, j) {
      WaitingBefore(s.db, s'.db, j);
      var m :| m in s.db.stream && s.db.stream[m] == j;
      assert m in s'.db.stream && s'.db.stream[m] == j;
    }
  }

  lemma SaveLeavesStream(db: Db, db': Db, ttl: nat, r: Record, expected: nat)
    requires HistoryInv(db) && db' == SaveJob(db, ttl, r, expected).0
    ensures db'.stream == db.stream && db'.lastEntry == db.lastEntry && db'.history.Keys == db.history.Keys
    ensures db'.deadLetters == db.deadLetters && db'.runs == db.runs
  {
    hide GoodHistory;
  }

  lemma CopyStepStream(cfg: Config, s: State, s': State, e: Event)
    requires e.Fetch? || e.FinishRun?
    requires Inv(s) && Inv(s') && Grows(s.db, s'.db) && EntriesInv(s) && NoJobLost(s.db) && s' == Step(cfg, s, e) && s' != s
    ensures EntriesInv(s') && NoJobLost(s'.db)
  {
    hide GoodHistory, CopiesInv, IndexInv, Grows, NoJobLost, TakeOver, Conclude;
    match e { case Fetch(_, _, _) => case FinishRun(_, _, _) => }
    SameStream(s, s', e.w);
  }

  lemma SaveStepStream(cfg: Config, s: State, s': State, w: nat, r: Record, expected: nat)
    requires Inv(s) && Inv(s') && Grows(s.db, s'.db) && EntriesInv(s) && NoJobLost(s.db) && w in s.workers
    requires s'.db == s.db || s'.db == SaveJob(s.db, cfg.jobTtl, r, expected).0
    requires exists phase :: s'.workers == s.workers[w := s.workers[w].(phase := phase)]
    ensures EntriesInv(s') && NoJobLost(s'.db)
  {
    hide GoodHistory, CopiesInv, IndexInv, Grows, NoJobLost, SaveJob;
    SaveLeavesStream(s.db, SaveJob(s.db, cfg.jobTtl, r, expected).0, cfg.jobTtl, r, expected);
    SameStream(s, s', w);
  }

  lemma RecordStepStream(cfg: Config, s: State, s': State, e: Event)
    requires e.SaveRunning? || e.SaveOutcome?
    requires Inv(s) && Inv(s') && Grows(s.db, s'.db) && EntriesInv(s) && NoJobLost(s.db) && s' == Step(cfg, s, e) && s' != s
    ensures EntriesInv(s') && NoJobLost(s'.db)
  {
    hide Inv, EntriesInv, NoJobLost, SaveJob, Grows, Begin;
    var me := s.workers[e.w];
    var copy := me.phase.record;
    assert s'.workers == s.workers[e.w := me.(phase := s'.workers[e.w].phase)];
    match e
    case SaveRunning(w, reply, at) => SaveStepStream(cfg, s, s', w, Begin(copy, at).(version := copy.version + 1), copy.version);
    case SaveOutcome(w, reply) => SaveStepStream(cfg, s, s', w, copy.(version := copy.version + 1), copy.version);
  }

  /** What taking, renewing and giving back leases and slots leaves alone. */
  ghost predicate LeasesOnly(s: State, s': State, w: nat) {
    && s'.db.records == s.db.records && s'.db.index == s.db.index && s'.db.history == s.db.history
    && s'.db.stream == s.db.stream && s'.db.queue == s.db.queue && s'.db.lastEntry == s.db.lastEntry
    && s'.db.deadLetters == s.db.deadLetters && s'.db.runs == s.db.runs
    && s'.db.clock == s.db.clock && s.db.serial <= s'.db.serial
    && (forall v | v in s'.workers && v != w :: v in s.workers && s'.workers[v] == s.workers[v])
    && (w in s'.workers ==>
          && w in s.workers && s'.workers[w].entry == s.workers[w].entry && s'.workers[w].job == s.workers[w].job
          && !s'.workers[w].phase.Started? && !s'.workers[w].phase.Burying?)
  }

  lemma ClaimFrame(cfg: Config, s: State, s': State, w: nat, reply: Reply)
    requires w in s.workers && s' == DoClaim(cfg, s, w, s.workers[w], reply)
    ensures LeasesOnly(s, s', w)
  {
    hide Leases.SetNX;
  }

  lemma ClaimReviewFrame(cfg: Config, s: State, s': State, w: nat, reply: Reply)
    requires w in s.workers && s.workers[w].phase.Fetched? && s' == DoClaimReview(cfg, s, w, s.workers[w], reply)
    ensures LeasesOnly(s, s', w)
  {
    hide Leases.SetNX;
  }

  lemma TakeSlotFrame(cfg: Config, s: State, s': State, w: nat, reply: Reply)
    requires w in s.workers && s.workers[w].phase.Reviewed? && s' == DoTakeSlot(cfg, s, w, s.workers[w], reply)
    ensures LeasesOnly(s, s', w)
  {
    hide Semaphore.Acquire;
  }

  ghost predicate CanBeat(me: Worker) {
    && me.phase.Executing? && !me.phase.beat.Cancelled?
    && me.claim.Some? && me.review.Some? && me.slot.Some?
  }

  lemma HeartbeatFrame(cfg: Config, s: State, s': State, w: nat, reply: Reply)
    requires w in s.workers && CanBeat(s.workers[w]) && s' == DoHeartbeat(cfg, s, w, s.workers[w], reply)
    ensures LeasesOnly(s, s', w)
  {
    hide Leases.Renew, Semaphore.Renew;
  }

  lemma ReleaseFrame(s: State, s': State, w: nat, reply: Reply)
    requires w in s.workers && s.workers[w].phase.Releasing? && s' == DoReleaseNext(s, w, s.workers[w], reply)
    ensures LeasesOnly(s, s', w)
  {
    hide Leases.Release, Semaphore.Release;
    var me := s.workers[w];
    if me.slot.Some? {
      assert s'.workers == s.workers[w := me.(slot := None)];
    } else if me.review.Some? {
      assert s'.workers == s.workers[w := me.(review := None)];
    } else if me.claim.Some? {
      assert s'.workers == s.workers[w := me.(claim := None)];
    } else {
      assert s' == Leave(s, w);
    }
  }

  lemma LeaseStepFrame(cfg: Config, s: State, s': State, e: Event)
    requires e.Claim? || e.ClaimReview? || e.TakeSlot? || e.Heartbeat? || e.ReleaseNext?
    requires s' == Step(cfg, s, e) && s' != s
    ensures LeasesOnly(s, s', e.w)
  {
    hide LeasesOnly;
    match e
    case Claim(w, reply) => ClaimFrame(cfg, s, s', w, reply);
    case ClaimReview(w, reply) => ClaimReviewFrame(cfg, s, s', w, reply);
    case TakeSlot(w, reply) => TakeSlotFrame(cfg, s, s', w, reply);
    case Heartbeat(w, reply) => HeartbeatFrame(cfg, s, s', w, reply);
    case ReleaseNext(w, reply) => ReleaseFrame(s, s', w, reply);
  }

  lemma LeaseStepStream(cfg: Config, s: State, s': State, e: Event)
    requires e.Claim? || e.ClaimReview? || e.TakeSlot? || e.Heartbeat? || e.ReleaseNext?
    requires Inv(s) && Inv(s') && Grows(s.db, s'.db) && EntriesInv(s) && NoJobLost(s.db) && s' == Step(cfg, s, e) && s' != s
    ensures EntriesInv(s') && NoJobLost(s'.db)
  {
    hide GoodHistory, CopiesInv, IndexInv, Grows, NoJobLost, Step;
    LeaseStepFrame(cfg, s, s', e);
    SameStream(s, s', e.w);
  }

  lemma PlainStepStream(cfg: Config, s: State, s': State, e: Event)
    requires e.Deliver? || e.AutoClaim? || e.Scan? || e.StartRun? || e.Bury? || e.Crash?
    requires Inv(s) && Inv(s') && Grows(s.db, s'.db) && EntriesInv(s) && NoJobLost(s.db) && s' == Step(cfg, s, e)
    ensures EntriesInv(s') && NoJobLost(s'.db)
  {
    hide GoodHistory, CopiesInv, IndexInv, Grows, NoJobLost, EntriesInv;
    SameStream(s, s', e.w);
  }

  /** Only the entry of a settled job is ever acknowledged. */
  lemma AckStepStream(cfg: Config, s: State, s': State, w: nat, reply: Reply)
    requires Inv(s) && Inv(s') && Grows(s.db, s'.db) && EntriesInv(s) && NoJobLost(s.db)
    requires w in s.workers && s.workers[w].phase.Acking? && s' == Step(cfg, s, Ack(w, reply))
    ensures EntriesInv(s') && NoJobLost(s'.db)
  {
    hide GoodHistory, IndexInv, Grows;
    var me := s.workers[w];
    assert s' == With(s, Outcome(reply, s.db, AckEntry(s.db, me.entry)), w, me.(phase := Releasing));
    assert CopyInv(s.db, me.job, me.phase);
    hide Step, WorkerStep, CopyInv, CopiesInv;
    forall j | Waiting(s'.db, j) ensures Queued(s'.db, j) {
      assert Waiting(s.db, j);
      var m :| m in s.db.stream && s.db.stream[m] == j;
      assert m != me.entry;
      assert m in s'.db.stream && s'.db.stream[m] == j;
    }
  }

  lemma SubmitStepStream(cfg: Config, s: State, s': State, order: Order, execution: string, parent: string, at: nat)
    requires Inv(s) && Inv(s') && Grows(s.db, s'.db) && EntriesInv(s) && NoJobLost(s.db)
    requires s' == DoSubmit(cfg, s, order, execution, parent, at)
    ensures EntriesInv(s') && NoJobLost(s'.db)
  {
    hide GoodHistory, IndexInv, CopiesInv;
    forall j | Waiting(s'.db, j) ensures Queued(s'.db, j) {
      if j in s.db.history {
        WaitingBefore(s.db, s'.db, j);
        var m :| m in s.db.stream && s.db.stream[m] == j;
        assert m in s'.db.stream && s'.db.stream[m] == j;
      } else {
        assert s'.db.stream[s.db.lastEntry] == j;
      }
    }
  }

  lemma StepStream(cfg: Config, s: State, s': State, e: Event)
    requires Inv(s) && Inv(s') && Grows(s.db, s'.db) && EntriesInv(s) && NoJobLost(s.db) && s' == Step(cfg, s, e)
    ensures EntriesInv(s') && NoJobLost(s'.db)
  {
    hide Inv, Grows, EntriesInv, NoJobLost, SaveJob, CreateJob;
    if s' != s {
      match e
      case Tick(until) => TickStepStream(s, s', until);
      case Submit(order, execution, parent, at, applied) => SubmitStepStream(cfg, s, s', order, execution, parent, at);
      case Ack(w, reply) => AckStepStream(cfg, s, s', w, reply);
      case Fetch(_, _, _) => CopyStepStream(cfg, s, s', e);
      case SaveRunning(_, _, _) => RecordStepStream(cfg, s, s', e);
      case FinishRun(_, _, _) => CopyStepStream(cfg, s, s', e);
      case SaveOutcome(_, _) => RecordStepStream(cfg, s, s', e);
      case Claim(_, _) => LeaseStepStream(cfg, s, s', e);
      case ClaimReview(_, _) => LeaseStepStream(cfg, s, s', e);
      case TakeSlot(_, _) => LeaseStepStream(cfg, s, s', e);
      case Heartbeat(_, _) => LeaseStepStream(cfg, s, s', e);
      case ReleaseNext(_, _) => LeaseStepStream(cfg, s, s', e);
      case _ => PlainStepStream(cfg, s, s', e);
    }
  }

  lemma TickStepStream(s: State, s': State, until: nat)
    requires Inv(s) && Inv(s') && Grows(s.db, s'.db) && EntriesInv(s) && NoJobLost(s.db)
    requires s' == s.(db := Elapse(s.db, until))
    ensures EntriesInv(s') && NoJobLost(s'.db)
  {
    hide GoodHistory, IndexInv, CopiesInv;
    forall j | Waiting(s'.db, j) ensures Queued(s'.db, j) {
      assert Waiting(s.db, j);
      var m :| m in s.db.stream && s.db.stream[m] == j;
      assert m in s'.db.stream && s'.db.stream[m] == j;
    }
  }
}
