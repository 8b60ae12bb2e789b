/** At most one agent run per attempt, and at most one dead letter per job. */
module JobRuns {
  import opened Options
  import opened JobRecord
  import opened JobMachine
  import opened JobHistory
  import opened JobStream

  // ---- Runs ----------------------------------------------------------------------------------

  /** A run was begun for a version stored as RUNNING, with that version's attempt and execution id. */
  ghost predicate BacksRun(db: Db, run: Run) {
    && run.job in db.history && 1 <= run.version <= |db.history[run.job]|
    && var r := db.history[run.job][run.version - 1];
    && r.status == Running && r.attempts == run.attempt && r.executionId == run.executionId
  }

  /** A stored RUNNING version is held by one worker about to run it, or has been run once, never both. */
  ghost predicate RunsInv(s: State) {
    && (forall i | 0 <= i < |s.db.runs| :: BacksRun(s.db, s.db.runs[i]))
    && (forall i, k | 0 <= i < k < |s.db.runs| && s.db.runs[i].job == s.db.runs[k].job ::
          s.db.runs[i].version != s.db.runs[k].version)
    && (forall w | w in s.workers && s.workers[w].phase.Started? ::
          forall i | 0 <= i < |s.db.runs| && s.db.runs[i].job == s.workers[w].job ::
            s.db.runs[i].version != s.workers[w].phase.record.version)
    && (forall v, w | v in s.workers && w in s.workers && v != w && s.workers[v].phase.Started? && s.workers[w].phase.Started?
                      && s.workers[v].job == s.workers[w].job ::
          s.workers[v].phase.record.version != s.workers[w].phase.record.version)
  }

  lemma RunsBacked(db: Db, db': Db)
    requires Grows(db, db') && forall i | 0 <= i < |db.runs| :: BacksRun(db, db.runs[i])
    ensures forall i | 0 <= i < |db.runs| :: BacksRun(db', db.runs[i])
  {
    forall i | 0 <= i < |db.runs| ensures BacksRun(db', db.runs[i]) {
      assert BacksRun(db, db.runs[i]);
      assert db.history[db.runs[i].job] <= db'.history[db.runs[i].job];
    }
  }

  /** No worker becomes ready to run. */
  lemma NoNewStart(s: State, s': State)
    requires RunsInv(s) && Grows(s.db, s'.db) && s'.db.runs == s.db.runs
    requires forall w | w in s'.workers && s'.workers[w].phase.Started? :: w in s.workers && s'.workers[w] == s.workers[w]
    ensures RunsInv(s')
  {
    RunsBacked(s.db, s'.db);
  }

  lemma NewStart(s: State, s': State, w: nat, r: Record)
    requires Inv(s) && RunsInv(s) && Grows(s.db, s'.db) && s'.db.runs == s.db.runs
    requires w in s.workers && s.workers[w].job == r.id && r.id in s.db.history && r.version == |s.db.history[r.id]| + 1
    requires s'.workers == s.workers[w := s.workers[w].(phase := Started(r))]
    ensures RunsInv(s')
  {
    hide GoodHistory;
    RunsBacked(s.db, s'.db);
    assert forall i | 0 <= i < |s.db.runs| :: BacksRun(s.db, s.db.runs[i]);
    forall v | v in s.workers && v != w && s.workers[v].phase.Started? && s.workers[v].job == r.id
      ensures s.workers[v].phase.record.version < r.version
    {
      assert CopyInv(s.db, s.workers[v].job, s.workers[v].phase);
    }
  }

  lemma RunBegins(s: State, s': State, w: nat)
    requires Inv(s) && RunsInv(s) && w in s.workers && s.workers[w].phase.Started?
    requires s' == DoStartRun(s, w, s.workers[w])
    ensures RunsInv(s')
  {
    hide GoodHistory;
    var me := s.workers[w];
    assert CopyInv(s.db, me.job, me.phase);
    assert me.phase.record.id == me.job by {
      assert GoodHistory(me.job, s.db.history[me.job], s.db.serial);
      StoredId(s.db, me.job, me.phase.record.version - 1);
    }
    RunsBacked(s.db, s'.db);
  }

  lemma StoredId(db: Db, j: nat, i: nat)
    requires HistoryInv(db) && j in db.history && i < |db.history[j]|
    ensures db.history[j][i].id == j && db.history[j][i].version == i + 1
  {
    assert GoodHistory(j, db.history[j], db.serial);
    HistoryFacts(db.history[j], i);
  }

  /** For one job and one attempt number, RunExecution is called at most once. */
  lemma AttemptsRunOnce(s: State, i: nat, k: nat)
    requires Inv(s) && RunsInv(s)
    requires i < |s.db.runs| && k < |s.db.runs|
    requires s.db.runs[i].job == s.db.runs[k].job && s.db.runs[i].attempt == s.db.runs[k].attempt
    ensures i == k
  {
    var j := s.db.runs[i].job;
    assert BacksRun(s.db, s.db.runs[i]) && BacksRun(s.db, s.db.runs[k]);
    assert GoodHistory(j, s.db.history[j], s.db.serial);
    OneRunningVersionPerAttempt(s.db.history[j], s.db.runs[i].version - 1, s.db.runs[k].version - 1);
  }

  // ---- Dead letters --------------------------------------------------------------------------

  ghost predicate IsBuried(db: Db, j: nat) {
    exists i :: 0 <= i < |db.deadLetters| && db.deadLetters[i].job == j
  }

  /** Only a job stored as FAILED is dead-lettered, with its last execution id, and at most once. */
  ghost predicate BurialInv(s: State) {
    && (forall i | 0 <= i < |s.db.deadLetters| ::
          && s.db.deadLetters[i].job in s.db.history
          && s.db.history[s.db.deadLetters[i].job] != []
          && Last(s.db.history[s.db.deadLetters[i].job]).status == Failed
          && Last(s.db.history[s.db.deadLetters[i].job]).executionId == s.db.deadLetters[i].executionId)
    && (forall i, k | 0 <= i < k < |s.db.deadLetters| :: s.db.deadLetters[i].job != s.db.deadLetters[k].job)
    && (forall w | w in s.workers && s.workers[w].phase.Burying? :: !IsBuried(s.db, s.workers[w].job))
    && (forall v, w | v in s.workers && w in s.workers && v != w && s.workers[v].phase.Burying? && s.workers[w].phase.Burying? ::
          s.workers[v].job != s.workers[w].job)
  }

  lemma LettersPersist(s: State, s': State)
    requires Inv(s) && Inv(s') && Grows(s.db, s'.db) && BurialInv(s)
    ensures forall i | 0 <= i < |s.db.deadLetters| ::
              && s.db.deadLetters[i].job in s'.db.history
              && s'.db.history[s.db.deadLetters[i].job] == s.db.history[s.db.deadLetters[i].job]
  {
    hide GoodHistory, Settled, PreparedCopy, ConcludedCopy;
    forall i | 0 <= i < |s.db.deadLetters| ensures s.db.deadLetters[i].job in s'.db.history
      && s'.db.history[s.db.deadLetters[i].job] == s.db.history[s.db.deadLetters[i].job] {
      TerminalIsLast(s.db, s'.db, s.db.deadLetters[i].job);
    }
  }

  lemma NoNewBurial(s: State, s': State)
    requires Inv(s) && Inv(s') && Grows(s.db, s'.db) && BurialInv(s) && s'.db.deadLetters == s.db.deadLetters
    requires forall w | w in s'.workers && s'.workers[w].phase.Burying? :: w in s.workers && s'.workers[w] == s.workers[w]
    ensures BurialInv(s')
  {
    hide Inv, Grows;
    LettersPersist(s, s');
  }

  /** A worker that has just stored FAILED is the only one to bury the job: the job was still RUNNING. */
  lemma NewBurial(s: State, s': State, w: nat, r: Record)
    requires Inv(s) && Inv(s') && Grows(s.db, s'.db) && BurialInv(s) && s'.db.deadLetters == s.db.deadLetters
    requires w in s.workers && s.workers[w].job == r.id && r.id in s.db.history && s.db.history[r.id] != []
    requires Last(s.db.history[r.id]).status == Running
    requires s'.workers == s.workers[w := s.workers[w].(phase := Burying(r))]
    ensures BurialInv(s')
  {
    hide GoodHistory, Settled, PreparedCopy, ConcludedCopy, IsVersion;
    LettersPersist(s, s');
    forall v | v in s.workers && v != w && s.workers[v].phase.Burying? ensures s.workers[v].job != r.id {
      assert CopyInv(s.db, s.workers[v].job, s.workers[v].phase);
    }
  }

  lemma BurialDone(cfg: Config, s: State, s': State, w: nat, reply: Reply)
    requires Inv(s) && BurialInv(s) && w in s.workers && s.workers[w].phase.Burying?
    requires s' == Step(cfg, s, Bury(w, reply))
    ensures BurialInv(s')
  {
    hide GoodHistory, Settled, PreparedCopy, ConcludedCopy, IsVersion, HistoryInv, IndexInv;
    assert CopyInv(s.db, s.workers[w].job, s.workers[w].phase);
    assert s'.db.history == s.db.history;
    assert forall v | v in s'.workers && s'.workers[v].phase.Burying? :: v != w && v in s.workers && s'.workers[v] == s.workers[v];
    hide Step, CopiesInv;
  }

  // ---- Steps ---------------------------------------------------------------------------------

  /** The stored version a worker's copy was made from. */
  lemma CopyBase(s: State, w: nat, copy: Record)
    requires Inv(s) && w in s.workers
    requires s.workers[w].phase == Slotted(copy) || s.workers[w].phase == Executed(copy)
    ensures s.workers[w].job in s.db.history && 1 <= copy.version <= |s.db.history[s.workers[w].job]|
    ensures copy.id == s.workers[w].job
    ensures IsVersion(s.db, copy.id, BaseOf(s.db, copy.id, copy)) && BaseOf(s.db, copy.id, copy).version == copy.version
    ensures s.workers[w].phase.Executed? ==> BaseOf(s.db, copy.id, copy).status == Running
  {
    hide GoodHistory, Transition;
    assert CopyInv(s.db, s.workers[w].job, s.workers[w].phase);
    StoredId(s.db, s.workers[w].job, copy.version - 1);
  }

  lemma SaveRunningSteps(cfg: Config, s: State, s': State, w: nat, reply: Reply, at: nat)
    requires Inv(s) && Inv(s') && Grows(s.db, s'.db) && RunsInv(s) && BurialInv(s)
    requires w in s.workers && s.workers[w].phase.Slotted? && s' == DoSaveRunning(cfg, s, w, s.workers[w], reply, at)
    ensures RunsInv(s') && BurialInv(s')
  {
    hide RunsInv, BurialInv, Grows, IndexInv, CopiesInv, GoodHistory, Begin, SaveJob, IsVersion;
    var copy := s.workers[w].phase.record;
    var r := Begin(copy, at).(version := copy.version + 1);
    var (after, saved) := SaveJob(s.db, cfg.jobTtl, r, copy.version);
    SaveLeavesStream(s.db, after, cfg.jobTtl, r, copy.version);
    BeginKeepsId(copy, at);
    CopyBase(s, w, copy);
    NoNewBurial(s, s');
    if reply.Answered? && saved.Saved? {
      SavedOverBase(s.db, cfg.jobTtl, r, BaseOf(s.db, copy.id, copy));
      NewStart(s, s', w, r);
    } else {
      NoNewStart(s, s');
    }
  }

  lemma BeginKeepsId(r: Record, at: nat)
    ensures Begin(r, at).id == r.id && Begin(r, at).status == Running
  {
  }

  lemma SaveOutcomeSteps(cfg: Config, s: State, s': State, w: nat, reply: Reply)
    requires Inv(s) && Inv(s') && Grows(s.db, s'.db) && RunsInv(s) && BurialInv(s)
    requires w in s.workers && s.workers[w].phase.Executed? && s' == DoSaveOutcome(cfg, s, w, s.workers[w], reply)
    ensures RunsInv(s') && BurialInv(s')
  {
    hide RunsInv, BurialInv, Grows, IndexInv, CopiesInv, GoodHistory, SaveJob, IsVersion;
    var copy := s.workers[w].phase.record;
    var r := copy.(version := copy.version + 1);
    var (after, saved) := SaveJob(s.db, cfg.jobTtl, r, copy.version);
    SaveLeavesStream(s.db, after, cfg.jobTtl, r, copy.version);
    CopyBase(s, w, copy);
    NoNewStart(s, s');
    if reply.Answered? && saved.Saved? && r.status.Failed? {
      SavedOverBase(s.db, cfg.jobTtl, r, BaseOf(s.db, copy.id, copy));
      NewBurial(s, s', w, r);
    } else {
      NoNewBurial(s, s');
    }
  }

  /** A step that neither starts nor buries anything. */
  ghost predicate NoStartNoBurial(s: State, s': State) {
    && s'.db.runs == s.db.runs && s'.db.deadLetters == s.db.deadLetters
    && forall w | w in s'.workers && (s'.workers[w].phase.Started? || s'.workers[w].phase.Burying?) ::
         w in s.workers && s'.workers[w] == s.workers[w]
  }

  lemma EntrySteps(cfg: Config, s: State, s': State, e: Event)
    requires e.Tick? || e.Submit? || e.Deliver? || e.AutoClaim? || e.Scan?
    requires s' == Step(cfg, s, e) && s' != s
    ensures NoStartNoBurial(s, s')
  {
    match e { case Tick(_) => case Submit(_, _, _, _, _) => case Deliver(_, _) => case AutoClaim(_, _, _) => case Scan(_, _) => }
  }

  lemma WorkSteps(cfg: Config, s: State, s': State, e: Event)
    requires e.Fetch? || e.FinishRun? || e.Ack? || e.Crash?
    requires s' == Step(cfg, s, e) && s' != s
    ensures NoStartNoBurial(s, s')
  {
    hide TakeOver, Conclude;
    match e { case Fetch(_, _, _) => case FinishRun(_, _, _) => case Ack(_, _) => case Crash(_) => }
  }

  lemma QuietSteps(cfg: Config, s: State, s': State, e: Event)
    requires !e.SaveRunning? && !e.SaveOutcome? && !e.Bury? && !e.StartRun?
    requires s' == Step(cfg, s, e) && s' != s
    ensures NoStartNoBurial(s, s')
  {
    hide Step;
    if e.Claim? || e.ClaimReview? || e.TakeSlot? || e.Heartbeat? || e.ReleaseNext? {
      LeaseStepFrame(cfg, s, s', e);
    } else if e.Fetch? || e.FinishRun? || e.Ack? || e.Crash? {
      WorkSteps(cfg, s, s', e);
    } else {
      EntrySteps(cfg, s, s', e);
    }
  }

  lemma OtherSteps(cfg: Config, s: State, s': State, e: Event)
    requires !e.SaveRunning? && !e.SaveOutcome? && !e.Bury? && !e.StartRun?
    requires Inv(s) && Inv(s') && Grows(s.db, s'.db) && RunsInv(s) && BurialInv(s) && s' == Step(cfg, s, e) && s' != s
    ensures RunsInv(s') && BurialInv(s')
  {
    hide RunsInv, BurialInv, Grows, Inv, Step;
    QuietSteps(cfg, s, s', e);
    NoNewStart(s, s');
    NoNewBurial(s, s');
  }

  lemma StepRuns(cfg: Config, s: State, s': State, e: Event)
    requires Inv(s) && Inv(s') && Grows(s.db, s'.db) && RunsInv(s) && BurialInv(s) && s' == Step(cfg, s, e)
    ensures RunsInv(s') && BurialInv(s')
  {
    hide RunsInv, BurialInv, Grows, Inv, SaveJob;
    if s' != s {
      match e
      case SaveRunning(w, reply, at) => SaveRunningSteps(cfg, s, s', w, reply, at);
      case SaveOutcome(w, reply) => SaveOutcomeSteps(cfg, s, s', w, reply);
      case StartRun(w) => RunBegins(s, s', w); NoNewBurial(s, s');
      case Bury(w, reply) => NoNewStart(s, s'); BurialDone(cfg, s, s', w, reply);
      case _ => OtherSteps(cfg, s, s', e);
    }
  }
}
