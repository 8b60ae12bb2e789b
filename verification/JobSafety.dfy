/** The guarantees of the queue over every run: any submissions, workers, crashes, lost replies and delays. */
module JobSafety {
  import opened Options
  import opened JobRecord
  import opened JobMachine
  import opened JobHistory
  import opened JobStream
  import opened JobRuns
  import opened JobHolds
  import Leases
  import Semaphore

  ghost predicate Safe(cfg: Config, s: State) {
    && Inv(s)
    && EntriesInv(s) && NoJobLost(s.db)
    && RunsInv(s) && BurialInv(s)
    && HoldsInv(cfg, s)
  }

  lemma InitialIsSafe(cfg: Config)
    ensures Safe(cfg, INITIAL)
  {
    hide Semaphore.Inv;
    NoSlots(cfg);
  }

  lemma NoSlots(cfg: Config)
    ensures Semaphore.Inv(map[], Semaphore.Empty<ScopeKey>(), Limits(cfg), 0)
  {
    assert Semaphore.Inv(map[], Semaphore.Empty<ScopeKey>(), Limits(cfg), 0) by {
      forall k ensures Semaphore.Fits(map[], Semaphore.Empty<ScopeKey>(), Limits(cfg), k) {
        assert Semaphore.Charged(map[], Semaphore.Empty<ScopeKey>(), k) == {};
      }
    }
  }

  lemma StepIsSafe(cfg: Config, s: State, s': State, e: Event)
    requires Safe(cfg, s) && s' == Step(cfg, s, e)
    ensures Safe(cfg, s') && Grows(s.db, s'.db)
  {
    hide Inv, EntriesInv, NoJobLost, RunsInv, BurialInv, HoldsInv, Grows, Step;
    StepKeeps(cfg, s, s', e);
    StepStream(cfg, s, s', e);
    StepRuns(cfg, s, s', e);
    StepHolds(cfg, s, s', e);
  }

  lemma {:induction false} PlayIsSafe(cfg: Config, s: State, events: seq<Event>)
    requires Safe(cfg, s)
    ensures Safe(cfg, Play(cfg, s, events)) && Grows(s.db, Play(cfg, s, events).db)
    decreases |events|
  {
    hide Safe, Step;
    if events == [] {
      GrowsItself(cfg, s);
    } else {
      var s1 := Step(cfg, s, events[0]);
      StepIsSafe(cfg, s, s1, events[0]);
      PlayIsSafe(cfg, s1, events[1..]);
      GrowsFurther(s.db, s1.db, Play(cfg, s1, events[1..]).db);
    }
  }

  lemma GrowsItself(cfg: Config, s: State)
    ensures Grows(s.db, s.db)
  {
  }

  lemma GrowsFurther(a: Db, b: Db, c: Db)
    requires Grows(a, b) && Grows(b, c)
    ensures Grows(a, c)
  {
  }

  // ---- The guarantees ------------------------------------------------------------------------

  ghost function Reached(cfg: Config, events: seq<Event>): State {
    Play(cfg, INITIAL, events)
  }

  /** No job is lost: work that is still to be done has an entry that nobody has acknowledged. */
  lemma NoJobIsLost(cfg: Config, events: seq<Event>, j: nat)
    requires Waiting(Reached(cfg, events).db, j)
    ensures Queued(Reached(cfg, events).db, j)
  {
    InitialIsSafe(cfg);
    PlayIsSafe(cfg, INITIAL, events);
  }

  /** RunExecution is called at most once for a job and an attempt number. */
  lemma EachAttemptRunsOnce(cfg: Config, events: seq<Event>, i: nat, k: nat)
    requires i < |Reached(cfg, events).db.runs| && k < |Reached(cfg, events).db.runs| && i != k
    requires Reached(cfg, events).db.runs[i].job == Reached(cfg, events).db.runs[k].job
    ensures Reached(cfg, events).db.runs[i].attempt != Reached(cfg, events).db.runs[k].attempt
  {
    InitialIsSafe(cfg);
    PlayIsSafe(cfg, INITIAL, events);
    if Reached(cfg, events).db.runs[i].attempt == Reached(cfg, events).db.runs[k].attempt {
      AttemptsRunOnce(Reached(cfg, events), i, k);
    }
  }

  /** The versions ever stored for a job form one linear path, each of them well logged. */
  lemma HistoriesAreLinear(cfg: Config, events: seq<Event>, j: nat, i: nat)
    requires j in Reached(cfg, events).db.history && i < |Reached(cfg, events).db.history[j]|
    ensures Linear(Reached(cfg, events).db.history[j])
    ensures Reached(cfg, events).db.history[j][i].version == i + 1 && WellLogged(Reached(cfg, events).db.history[j][i])
  {
    InitialIsSafe(cfg);
    PlayIsSafe(cfg, INITIAL, events);
    assert GoodHistory(j, Reached(cfg, events).db.history[j], Reached(cfg, events).db.serial);
    HistoryFacts(Reached(cfg, events).db.history[j], i);
  }

  /** A terminal record is final: nothing any worker does afterwards, however stale its copy, stores another version. */
  lemma TerminalIsForever(cfg: Config, events: seq<Event>, more: seq<Event>, j: nat)
    requires j in Reached(cfg, events).db.records && IsTerminal(Reached(cfg, events).db.records[j].record.status)
    ensures var later := Play(cfg, Reached(cfg, events), more).db;
      && j in later.history && j in Reached(cfg, events).db.history && later.history[j] == Reached(cfg, events).db.history[j]
      && (j in later.records ==> later.records[j].record == Reached(cfg, events).db.records[j].record)
  {
    InitialIsSafe(cfg);
    PlayIsSafe(cfg, INITIAL, events);
    PlayIsSafe(cfg, Reached(cfg, events), more);
    TerminalIsLast(Reached(cfg, events).db, Play(cfg, Reached(cfg, events), more).db, j);
  }

  /** A job is dead-lettered at most once, and only once it is stored as FAILED with its retries used up. */
  lemma DeadLettersAreFinal(cfg: Config, events: seq<Event>, i: nat)
    requires i < |Reached(cfg, events).db.deadLetters|
    ensures var db := Reached(cfg, events).db;
      && db.deadLetters[i].job in db.history && db.history[db.deadLetters[i].job] != []
      && var r := Last(db.history[db.deadLetters[i].job]);
      && r.status == Failed && r.attempts > r.order.maxRetries && r.executionId == db.deadLetters[i].executionId
      && forall k | 0 <= k < |db.deadLetters| && k != i :: db.deadLetters[k].job != db.deadLetters[i].job
  {
    InitialIsSafe(cfg);
    PlayIsSafe(cfg, INITIAL, events);
    var db := Reached(cfg, events).db;
    var h := db.history[db.deadLetters[i].job];
    assert GoodHistory(db.deadLetters[i].job, h, db.serial);
    HistoryFacts(h, |h| - 1);
  }

  /** Two live jobs never stem from one source event; the index names the one there is and lapses with it. */
  lemma OneLiveJobPerSource(cfg: Config, events: seq<Event>, i: nat, j: nat)
    requires i in Reached(cfg, events).db.records && j in Reached(cfg, events).db.records
    requires Reached(cfg, events).db.records[i].record.order.source == Reached(cfg, events).db.records[j].record.order.source != ""
    ensures i == j
    ensures var db := Reached(cfg, events).db; var source := db.records[i].record.order.source;
      source in db.index && db.index[source] == IndexEntry(i, db.records[i].expires)
  {
    InitialIsSafe(cfg);
    PlayIsSafe(cfg, INITIAL, events);
  }

  /** Runs that hold their review claims, by taking or by renewing them, never overlap on one review of one store. */
  lemma ReviewsRunAlone(cfg: Config, events: seq<Event>, v: nat, w: nat)
    requires HoldsReview(cfg, Reached(cfg, events), v) && HoldsReview(cfg, Reached(cfg, events), w) && v != w
    ensures var one, other := Reached(cfg, events).workers[v].phase.record.order, Reached(cfg, events).workers[w].phase.record.order;
      one.store != other.store || one.review != other.review
  {
    InitialIsSafe(cfg);
    PlayIsSafe(cfg, INITIAL, events);
    var one, other := Reached(cfg, events).workers[v].phase.record.order, Reached(cfg, events).workers[w].phase.record.order;
    if one.store == other.store && one.review == other.review {
      RunsExclude(cfg, Reached(cfg, events), v, w);
    }
  }

  /** Runs that hold their slots never exceed the configured concurrency, overall or in any one scope of a store. */
  lemma RunsWithinLimits(cfg: Config, events: seq<Event>, ws: set<nat>, store: int, scope: string)
    requires forall w | w in ws :: HoldsSlot(cfg, Reached(cfg, events), w)
    ensures |ws| <= cfg.globalLimit
    ensures (forall w | w in ws :: HoldsSlot(cfg, Reached(cfg, events), w)
              && InScope(Reached(cfg, events).workers[w].phase.record, store, scope)) ==> |ws| <= cfg.scopeLimit
  {
    InitialIsSafe(cfg);
    PlayIsSafe(cfg, INITIAL, events);
    RunsFit(cfg, Reached(cfg, events), ws, store, scope);
  }

  /** A run that begins within 30 s of its review claim holds claim and slot until its timeout, renewed or not. */
  lemma TimelyRunsAreCovered(cfg: Config, events: seq<Event>, w: nat)
    requires InWindow(cfg, Reached(cfg, events), w)
    ensures HoldsReview(cfg, Reached(cfg, events), w) && HoldsSlot(cfg, Reached(cfg, events), w)
  {
    InitialIsSafe(cfg);
    PlayIsSafe(cfg, INITIAL, events);
    TimelyRunsHold(cfg, Reached(cfg, events), w);
  }

  /** Once time has passed, exactly what has not lapsed is left, and an expired set of slots is empty. */
  lemma LapsedIsGone(cfg: Config, s: State, until: nat)
    requires s.db.clock <= until
    ensures var before, db := s.db, Step(cfg, s, Tick(until)).db;
      && db.clock == until
      && (forall j :: j in db.records <==> j in before.records && until <= before.records[j].expires)
      && (forall e :: e in db.index <==> e in before.index && until <= before.index[e].expires)
      && (forall j :: j in db.claims <==> j in before.claims && until <= before.claims[j].expires)
      && (forall k :: k in db.reviews <==> k in before.reviews && until <= before.reviews[k].expires)
      && db.slots.global.scores == (if until <= before.slots.global.expires then before.slots.global.scores else map[])
  {
  }
}
