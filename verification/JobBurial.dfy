/**
  Which FAILED jobs reach the dead-letter stream. FAILED is stored first and the letter is written
  afterwards, so a lost reply or a crash in between loses the letter for good: no one else writes it.
 */
module JobBurial {
  import opened Options
  import opened JobRecord
  import opened JobMachine
  import opened JobHistory
  import opened JobStream
  import opened JobRuns
  import opened JobHolds
  import opened JobSafety

  ghost predicate HasFailed(db: Db, j: nat) {
    j in db.history && db.history[j] != [] && Last(db.history[j]).status == Failed
  }

  /** Some worker is about to write the job's dead letter. */
  ghost predicate Awaited(s: State, j: nat) {
    exists w :: w in s.workers && s.workers[w].phase.Burying? && s.workers[w].job == j
  }

  ghost predicate LetterLost(s: State, j: nat) {
    HasFailed(s.db, j) && !IsBuried(s.db, j) && !Awaited(s, j)
  }

  /** The step that stores FAILED as the job's last version. */
  ghost predicate StoresFailed(cfg: Config, s: State, e: Event, j: nat) {
    && e.SaveOutcome? && e.reply != Dropped(false) && e.w in s.workers && s.workers[e.w].phase.Executed?
    && var r := s.workers[e.w].phase.record;
    && r.id == j && r.status == Failed && SaveJob(s.db, cfg.jobTtl, r.(version := r.version + 1), r.version).1.Saved?
  }

  /** The first thing worker w gets to do about its letter is to write it, and the write reaches Redis. */
  predicate Buries(events: seq<Event>, w: nat) {
    events != []
    && if events[0].Bury? && events[0].w == w then events[0].reply != Dropped(false)
       else events[0] != Crash(w) && Buries(events[1..], w)
  }

  // ---- One step ------------------------------------------------------------------------------

  /** No letter is written and nobody becomes ready to write one. */
  ghost predicate NoBurial(s: State, s': State) {
    && s'.db.deadLetters == s.db.deadLetters
    && forall w | w in s'.workers && s'.workers[w].phase.Burying? :: w in s.workers && s'.workers[w] == s.workers[w]
  }

  lemma OnlySavesAndBurials(cfg: Config, s: State, s': State, e: Event)
    requires s' == Step(cfg, s, e) && !e.SaveOutcome? && !e.Bury?
    ensures NoBurial(s, s')
  {
    hide Step;
    if s' == s {
    } else if e.SaveRunning? {
      assert e == SaveRunning(e.w, e.reply, e.at);
      RunningSaved(cfg, s, s', e.w, e.reply, e.at);
    } else if e.StartRun? {
      assert e == StartRun(e.w);
      RunStarted(cfg, s, s', e.w);
    } else {
      QuietSteps(cfg, s, s', e);
    }
  }

  lemma RunningSaved(cfg: Config, s: State, s': State, w: nat, reply: Reply, at: nat)
    requires s' == Step(cfg, s, SaveRunning(w, reply, at)) && s' != s
    ensures NoBurial(s, s')
  {
    hide Begin;
  }

  lemma RunStarted(cfg: Config, s: State, s': State, w: nat)
    requires s' == Step(cfg, s, StartRun(w)) && s' != s
    ensures NoBurial(s, s')
  {
  }

  /** Only an answered save of FAILED makes a worker ready to write a letter. */
  lemma OutcomeSaved(cfg: Config, s: State, s': State, w: nat, reply: Reply)
    requires Inv(s) && s' == Step(cfg, s, SaveOutcome(w, reply))
    ensures s'.db.deadLetters == s.db.deadLetters
    ensures forall v | v in s'.workers && s'.workers[v].phase.Burying? ::
      (v in s.workers && s'.workers[v] == s.workers[v])
      || (v == w && reply.Answered? && StoresFailed(cfg, s, SaveOutcome(w, reply), s'.workers[v].job))
  {
    hide SaveJob, GoodHistory, HistoryInv, IndexInv, CopiesInv;
    if s' != s {
      var copy := s.workers[w].phase.record;
      CopyBase(s, w, copy);
      SaveLeavesStream(s.db, SaveJob(s.db, cfg.jobTtl, copy.(version := copy.version + 1), copy.version).0, cfg.jobTtl,
        copy.(version := copy.version + 1), copy.version);
    }
  }

  /** FAILED is stored over a RUNNING version. */
  lemma FailedOverRunning(cfg: Config, s: State, e: Event, j: nat)
    requires Inv(s) && StoresFailed(cfg, s, e, j)
    ensures j in s.db.history && !HasFailed(s.db, j) && s.workers[e.w].job == j
  {
    hide GoodHistory, IndexInv, SaveJob;
    var r := s.workers[e.w].phase.record;
    CopyBase(s, e.w, r);
    SavedOverBase(s.db, cfg.jobTtl, r.(version := r.version + 1), BaseOf(s.db, j, r));
  }

  /** The letter a burying worker writes is its own job's. */
  lemma LetterOfJob(s: State, w: nat)
    requires Inv(s) && w in s.workers && s.workers[w].phase.Burying?
    ensures s.workers[w].phase.record.id == s.workers[w].job && HasFailed(s.db, s.workers[w].job)
  {
    hide GoodHistory, HistoryInv, IndexInv, PreparedCopy, ConcludedCopy, IsVersion;
    assert CopyInv(s.db, s.workers[w].job, s.workers[w].phase);
  }

  lemma FailedStays(s: State, s': State, j: nat)
    requires Inv(s) && Inv(s') && Grows(s.db, s'.db) && HasFailed(s.db, j)
    ensures HasFailed(s'.db, j)
  {
    TerminalIsLast(s.db, s'.db, j);
  }

  /** Once nobody is left to write it, a letter stays unwritten. */
  lemma LossStays(cfg: Config, s: State, s': State, e: Event, j: nat)
    requires Inv(s) && Inv(s') && Grows(s.db, s'.db) && s' == Step(cfg, s, e) && LetterLost(s, j)
    ensures LetterLost(s', j)
  {
    hide Inv, Grows, StoresFailed;
    FailedStays(s, s', j);
    if e.SaveOutcome? {
      hide Step;
      OutcomeSaved(cfg, s, s', e.w, e.reply);
      if StoresFailed(cfg, s, e, j) { FailedOverRunning(cfg, s, e, j); }
    } else if e.Bury? {
      if s' != s { LetterOfJob(s, e.w); }
    } else {
      hide Step;
      OnlySavesAndBurials(cfg, s, s', e);
    }
  }

  lemma LettersStay(cfg: Config, s: State, s': State, e: Event, j: nat)
    requires Inv(s) && s' == Step(cfg, s, e) && IsBuried(s.db, j)
    ensures IsBuried(s'.db, j)
  {
    hide Inv;
    var i :| 0 <= i < |s.db.deadLetters| && s.db.deadLetters[i].job == j;
    assert |s.db.deadLetters| <= |s'.db.deadLetters| && s'.db.deadLetters[i] == s.db.deadLetters[i] by {
      if e.SaveOutcome? {
        hide Step;
        OutcomeSaved(cfg, s, s', e.w, e.reply);
      } else if !e.Bury? {
        hide Step;
        OnlySavesAndBurials(cfg, s, s', e);
      }
    }
  }

  // ---- Whole runs ----------------------------------------------------------------------------

  lemma {:induction false} LostForGood(cfg: Config, s: State, more: seq<Event>, j: nat)
    requires Safe(cfg, s) && LetterLost(s, j)
    ensures !IsBuried(Play(cfg, s, more).db, j)
    decreases |more|
  {
    hide Step, LetterLost;
    if more == [] {
      assert !IsBuried(s.db, j) by { assert LetterLost(s, j); Unwritten(s, j); }
    } else {
      var s1 := Step(cfg, s, more[0]);
      StepIsSafe(cfg, s, s1, more[0]);
      LossStays(cfg, s, s1, more[0], j);
      LostForGood(cfg, s1, more[1..], j);
    }
  }

  lemma Unwritten(s: State, j: nat)
    requires LetterLost(s, j)
    ensures !IsBuried(s.db, j)
  {
  }

  lemma {:induction false} WrittenForGood(cfg: Config, s: State, more: seq<Event>, j: nat)
    requires Safe(cfg, s) && IsBuried(s.db, j)
    ensures IsBuried(Play(cfg, s, more).db, j)
    decreases |more|
  {
    hide Step, IsBuried;
    if more != [] {
      var s1 := Step(cfg, s, more[0]);
      StepIsSafe(cfg, s, s1, more[0]);
      LettersStay(cfg, s, s1, more[0], j);
      WrittenForGood(cfg, s1, more[1..], j);
    }
  }

  /** A FAILED job can still be dead-lettered if and only if it already is, or a worker stands ready to write the letter. */
  lemma DeadLetterable(cfg: Config, s: State, j: nat)
    requires Safe(cfg, s) && HasFailed(s.db, j)
    ensures (exists more: seq<Event> :: IsBuried(Play(cfg, s, more).db, j)) <==> IsBuried(s.db, j) || Awaited(s, j)
  {
    hide Safe, HasFailed, IsBuried, Step;
    if IsBuried(s.db, j) {
      assert IsBuried(Play(cfg, s, []).db, j);
    } else if Awaited(s, j) {
      var w :| w in s.workers && s.workers[w].phase.Burying? && s.workers[w].job == j;
      var more := [Bury(w, Answered)];
      assert Buries(more, w);
      LetterFollows(cfg, s, w, more);
      assert IsBuried(Play(cfg, s, more).db, j);
    } else {
      forall more: seq<Event> ensures !IsBuried(Play(cfg, s, more).db, j) {
        assert LetterLost(s, j);
        LostForGood(cfg, s, more, j);
      }
    }
  }

  /** What a burying worker's own next step leads to. */
  lemma BuryStep(cfg: Config, s: State, s': State, w: nat, reply: Reply)
    requires Safe(cfg, s) && w in s.workers && s.workers[w].phase.Burying? && s' == Step(cfg, s, Bury(w, reply))
    ensures if reply != Dropped(false) then IsBuried(s'.db, s.workers[w].job) else LetterLost(s', s.workers[w].job)
  {
    hide Inv, EntriesInv, NoJobLost, RunsInv, HoldsInv;
    LetterOfJob(s, w);
    if reply != Dropped(false) {
      assert s'.db.deadLetters[|s.db.deadLetters|].job == s.workers[w].job;
    }
  }

  lemma CrashStep(cfg: Config, s: State, s': State, w: nat)
    requires Safe(cfg, s) && w in s.workers && s.workers[w].phase.Burying? && s' == Step(cfg, s, Crash(w))
    ensures LetterLost(s', s.workers[w].job)
  {
    hide Inv, EntriesInv, NoJobLost, RunsInv, HoldsInv;
    LetterOfJob(s, w);
  }

  /** Nobody else moves a burying worker. */
  lemma BuryingStays(cfg: Config, s: State, s': State, w: nat, e: Event)
    requires w in s.workers && s.workers[w].phase.Burying? && s' == Step(cfg, s, e)
    requires e != Crash(w) && !(e.Bury? && e.w == w)
    ensures w in s'.workers && s'.workers[w] == s.workers[w]
  {
    hide SaveJob, CreateJob, Conclude, Begin, TakeOver, Elapse;
  }

  /** A burying worker's job is dead-lettered if and only if its letter is the next thing it does and reaches Redis. */
  lemma {:induction false} LetterFollows(cfg: Config, s: State, w: nat, more: seq<Event>)
    requires Safe(cfg, s) && w in s.workers && s.workers[w].phase.Burying?
    ensures IsBuried(Play(cfg, s, more).db, s.workers[w].job) <==> Buries(more, w)
    decreases |more|
  {
    var j := s.workers[w].job;
    if more == [] {
      assert !IsBuried(s.db, j);
    } else {
      hide Step, Safe, IsBuried;
      var s1 := Step(cfg, s, more[0]);
      StepIsSafe(cfg, s, s1, more[0]);
      if more[0].Bury? && more[0].w == w {
        BuryStep(cfg, s, s1, w, more[0].reply);
        if more[0].reply != Dropped(false) { WrittenForGood(cfg, s1, more[1..], j); } else { LostForGood(cfg, s1, more[1..], j); }
      } else if more[0] == Crash(w) {
        CrashStep(cfg, s, s1, w);
        LostForGood(cfg, s1, more[1..], j);
      } else {
        BuryingStays(cfg, s, s1, w, more[0]);
        LetterFollows(cfg, s1, w, more[1..]);
      }
    }
  }

  /** Right after FAILED was stored the worker knows of it only if it was answered. */
  lemma AfterFailure(cfg: Config, s: State, s': State, e: Event, j: nat)
    requires Safe(cfg, s) && StoresFailed(cfg, s, e, j) && s' == Step(cfg, s, e)
    ensures HasFailed(s'.db, j)
    ensures if e.reply.Answered? then e.w in s'.workers && s'.workers[e.w].phase.Burying? && s'.workers[e.w].job == j else LetterLost(s', j)
  {
    hide EntriesInv, NoJobLost, RunsInv, HoldsInv, IndexInv, GoodHistory;
    FailedOverRunning(cfg, s, e, j);
    assert forall i | 0 <= i < |s.db.deadLetters| :: s.db.deadLetters[i].job != j;
    assert !Awaited(s, j) by {
      forall w | w in s.workers && s.workers[w].phase.Burying? && s.workers[w].job == j ensures false { LetterOfJob(s, w); }
    }
  }

  /** Given the step that stored FAILED: dead-lettered if and only if that save was answered and the letter comes next and reaches Redis. */
  lemma FailureIsBuriedIff(cfg: Config, s: State, e: Event, j: nat, more: seq<Event>)
    requires Safe(cfg, s) && StoresFailed(cfg, s, e, j)
    ensures IsBuried(Play(cfg, Step(cfg, s, e), more).db, j) <==> e.reply.Answered? && Buries(more, e.w)
  {
    hide Safe, Step, IsBuried, HasFailed, SaveJob;
    var s' := Step(cfg, s, e);
    StepIsSafe(cfg, s, s', e);
    AfterFailure(cfg, s, s', e, j);
    if e.reply.Answered? {
      LetterFollows(cfg, s', e.w, more);
    } else {
      LostForGood(cfg, s', more, j);
    }
  }

  // ---- Every FAILED job ----------------------------------------------------------------------

  ghost predicate FailedBy(cfg: Config, s: State, events: seq<Event>, i: nat, j: nat) {
    i < |events| && StoresFailed(cfg, Play(cfg, s, events[..i]), events[i], j)
  }

  lemma SameLast(s: State, s': State, j: nat)
    requires s'.db.history == s.db.history
    ensures HasFailed(s'.db, j) == HasFailed(s.db, j)
  {
  }

  /** Where a job turns FAILED, that step stored it. */
  lemma FailureIsStored(cfg: Config, s: State, s': State, e: Event, j: nat)
    requires Inv(s) && s' == Step(cfg, s, e) && !HasFailed(s.db, j) && HasFailed(s'.db, j)
    ensures StoresFailed(cfg, s, e, j)
  {
    hide Inv, StoresFailed;
    if e.SaveOutcome? {
      FailedOutcome(cfg, s, s', e.w, e.reply, j);
    } else if e.SaveRunning? {
      assert false by { NoFailedStart(cfg, s, s', e.w, e.reply, e.at, j); }
    } else if e.Submit? {
    } else {
      hide Step;
      HistoryUntouched(cfg, s, s', e);
      SameLast(s, s', j);
    }
  }

  lemma FailedOutcome(cfg: Config, s: State, s': State, w: nat, reply: Reply, j: nat)
    requires s' == Step(cfg, s, SaveOutcome(w, reply)) && !HasFailed(s.db, j) && HasFailed(s'.db, j)
    ensures StoresFailed(cfg, s, SaveOutcome(w, reply), j)
  {
  }

  lemma NoFailedStart(cfg: Config, s: State, s': State, w: nat, reply: Reply, at: nat, j: nat)
    requires s' == Step(cfg, s, SaveRunning(w, reply, at)) && !HasFailed(s.db, j)
    ensures !HasFailed(s'.db, j)
  {
  }

  lemma HistoryUntouched(cfg: Config, s: State, s': State, e: Event)
    requires s' == Step(cfg, s, e) && !e.SaveOutcome? && !e.SaveRunning? && !e.Submit?
    ensures s'.db.history == s.db.history
  {
    hide Step;
    if s' == s {
    } else if e.Claim? || e.ClaimReview? || e.TakeSlot? || e.Heartbeat? || e.ReleaseNext? {
      LeaseStepFrame(cfg, s, s', e);
    } else {
      PlainHistory(cfg, s, s', e);
    }
  }

  lemma PlainHistory(cfg: Config, s: State, s': State, e: Event)
    requires e.Tick? || e.Deliver? || e.AutoClaim? || e.Scan? || e.Fetch? || e.StartRun? || e.FinishRun? || e.Bury? || e.Ack? || e.Crash?
    requires s' == Step(cfg, s, e)
    ensures s'.db.history == s.db.history
  {
    hide Conclude, TakeOver;
  }

  lemma {:induction false} FindFailure(cfg: Config, s: State, events: seq<Event>, j: nat) returns (i: nat)
    requires Safe(cfg, s) && !HasFailed(s.db, j) && HasFailed(Play(cfg, s, events).db, j)
    ensures FailedBy(cfg, s, events, i, j)
    decreases |events|
  {
    hide Step, Safe, HasFailed, StoresFailed;
    var s1 := Step(cfg, s, events[0]);
    StepIsSafe(cfg, s, s1, events[0]);
    if HasFailed(s1.db, j) {
      assert Inv(s) by { assert Safe(cfg, s); Sound(cfg, s); }
      FailureIsStored(cfg, s, s1, events[0], j);
      assert events[..0] == [];
      i := 0;
    } else {
      var k := FindFailure(cfg, s1, events[1..], j);
      i := k + 1;
      assert events[..i][1..] == events[1..][..k] && events[..i][0] == events[0];
    }
  }

  lemma Sound(cfg: Config, s: State)
    requires Safe(cfg, s)
    ensures Inv(s)
  {
  }

  /**
    Every FAILED job of every run: one step stored the failure, and the job is dead-lettered if and only if
    that save was answered and its worker went on to write the letter, which reached Redis.
   */
  lemma DeadLetteredIff(cfg: Config, events: seq<Event>, j: nat) returns (i: nat)
    requires HasFailed(Reached(cfg, events).db, j)
    ensures i < |events| && StoresFailed(cfg, Reached(cfg, events[..i]), events[i], j)
    ensures IsBuried(Reached(cfg, events).db, j) <==> events[i].reply.Answered? && Buries(events[i + 1..], events[i].w)
  {
    hide Step, Safe, HasFailed, StoresFailed, IsBuried, Buries;
    InitialIsSafe(cfg);
    assert !HasFailed(INITIAL.db, j) by { NothingStored(j); }
    i := FindFailure(cfg, INITIAL, events, j);
    var s := Reached(cfg, events[..i]);
    PlayIsSafe(cfg, INITIAL, events[..i]);
    FailureIsBuriedIff(cfg, s, events[i], j, events[i + 1..]);
    assert events == events[..i] + ([events[i]] + events[i + 1..]);
    PlayJoins(cfg, INITIAL, events[..i], [events[i]] + events[i + 1..]);
    assert ([events[i]] + events[i + 1..])[1..] == events[i + 1..];
  }

  lemma NothingStored(j: nat)
    ensures !HasFailed(INITIAL.db, j)
  {
  }

  /** The same, for what may still come: a FAILED job is never dead-lettered if and only if its letter is lost. */
  lemma NeverDeadLettered(cfg: Config, events: seq<Event>, j: nat)
    requires HasFailed(Reached(cfg, events).db, j)
    ensures (forall more: seq<Event> :: !IsBuried(Play(cfg, Reached(cfg, events), more).db, j)) <==> LetterLost(Reached(cfg, events), j)
  {
    hide Step, Safe, HasFailed, IsBuried, Awaited;
    InitialIsSafe(cfg);
    PlayIsSafe(cfg, INITIAL, events);
    DeadLetterable(cfg, Reached(cfg, events), j);
  }
}
