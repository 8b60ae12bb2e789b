/** What every step keeps about stored records: linear histories, the source index, and the workers' copies. */
module JobHistory {
  import opened Options
  import opened JobRecord
  import opened JobMachine
  import Leases
  import Semaphore

  // ---- The database side ---------------------------------------------------------------------

  ghost predicate GoodHistory(j: nat, h: seq<Record>, serial: nat) {
    && j < serial
    && Linear(h) && h[0].id == j
    && forall i | 0 <= i < |h| :: RecordBelow(h[i], serial)
  }

  function Last(h: seq<Record>): Record
    requires h != []
  {
    h[|h| - 1]
  }

  /** Every history is linear, and a live record is the last version of its history. */
  ghost predicate HistoryInv(db: Db) {
    && (forall j | j in db.history :: GoodHistory(j, db.history[j], db.serial))
    && (forall j | j in db.records :: j in db.history && db.records[j].record == Last(db.history[j]))
  }

  /** The live jobs with a source event and the index point at each other and lapse together. */
  ghost predicate IndexInv(db: Db) {
    && (forall j | j in db.records && db.records[j].record.order.source != "" ::
          && db.records[j].record.order.source in db.index
          && db.index[db.records[j].record.order.source] == IndexEntry(j, db.records[j].expires))
    && (forall e | e in db.index :: e != "" && db.index[e].job in db.records && db.records[db.index[e].job].record.order.source == e)
  }

  /** Histories only grow, and a record that is gone stays gone. */
  ghost predicate Grows(db: Db, db': Db) {
    && db.clock <= db'.clock && db.serial <= db'.serial
    && (forall j | j in db.history :: j in db'.history && db.history[j] <= db'.history[j])
    && (forall j | j in db.history && j !in db.records :: j !in db'.records)
  }

  // ---- The workers' side ---------------------------------------------------------------------

  ghost predicate IsVersion(db: Db, j: nat, r: Record) {
    && j in db.history && 1 <= r.version <= |db.history[j]| && db.history[j][r.version - 1] == r
  }

  function BaseOf(db: Db, j: nat, r: Record): Record
    requires j in db.history && 1 <= r.version <= |db.history[j]|
  {
    db.history[j][r.version - 1]
  }

  /** The stream entry of a settled job is no longer needed. */
  ghost predicate Settled(db: Db, j: nat) {
    j in db.history && (j in db.records ==> IsTerminal(db.records[j].record.status))
  }

  /** How a worker's copy relates to the versions stored so far. */
  ghost predicate CopyInv(db: Db, j: nat, phase: Phase) {
    && j in db.history
    && match phase
       case Fetched(r) => PreparedCopy(db, j, r)
       case Reviewed(r) => PreparedCopy(db, j, r)
       case Slotted(r) => PreparedCopy(db, j, r)
       case Started(r) => IsVersion(db, j, r) && r.status == Running
       case Executing(r, _) => IsVersion(db, j, r) && r.status == Running
       case Executed(r) => ConcludedCopy(db, j, r)
       case Burying(r) => db.history[j] != [] && r == Last(db.history[j]) && r.status == Failed && r.id == j
       case Acking => Settled(db, j)
       case _ => true
  }

  ghost predicate PreparedCopy(db: Db, j: nat, r: Record) {
    && j in db.history && 1 <= r.version <= |db.history[j]|
    && Prepared(BaseOf(db, j, r), r) && RecordBelow(r, db.serial)
  }

  ghost predicate ConcludedCopy(db: Db, j: nat, r: Record) {
    && j in db.history && 1 <= r.version <= |db.history[j]|
    && r.id == j && BaseOf(db, j, r).status == Running && r.status != Running
    && Transition(BaseOf(db, j, r), r.(version := r.version + 1)) && RecordBelow(r, db.serial)
  }

  ghost predicate CopiesInv(s: State) {
    forall w | w in s.workers :: CopyInv(s.db, s.workers[w].job, s.workers[w].phase)
  }

  /** A stream entry names a created job, and a worker's entry is its job's. */
  ghost predicate EntriesInv(s: State) {
    && (forall m | m in s.db.stream :: m < s.db.lastEntry && s.db.stream[m] in s.db.history)
    && (forall w | w in s.workers ::
          && s.workers[w].entry < s.db.lastEntry
          && (s.workers[w].entry in s.db.stream ==> s.db.stream[s.workers[w].entry] == s.workers[w].job))
  }

  ghost predicate Inv(s: State) {
    HistoryInv(s.db) && IndexInv(s.db) && CopiesInv(s)
  }

  // ---- Scripts -------------------------------------------------------------------------------

  /** A won compare-and-set was won against the very version the new record was computed from. */
  lemma SavedOverBase(db: Db, ttl: nat, r: Record, base: Record)
    requires HistoryInv(db) && IsVersion(db, r.id, base) && SaveJob(db, ttl, r, base.version).1.Saved?
    ensures r.id in db.records && |db.history[r.id]| == base.version && base == Last(db.history[r.id])
  {
    HistoryFacts(db.history[r.id], |db.history[r.id]| - 1);
  }

  lemma GoodExtends(j: nat, h: seq<Record>, serial: nat, r: Record)
    requires GoodHistory(j, h, serial) && Transition(Last(h), r) && RecordBelow(r, serial)
    ensures GoodHistory(j, h + [r], serial)
  {
    hide Transition, RecordBelow;
    LinearExtends(h, r);
  }

  lemma LongerGrows(db: Db, db': Db, j: nat, r: Record)
    requires j in db.history && db'.history == db.history[j := db.history[j] + [r]]
    requires db'.records.Keys == db.records.Keys && db'.clock == db.clock && db'.serial == db.serial
    ensures Grows(db, db')
  {
  }

  lemma HistoryExtends(db: Db, db': Db, j: nat, r: Record)
    requires HistoryInv(db) && j in db.records && RecordBelow(r, db.serial)
    requires Transition(Last(db.history[j]), r)
    requires db'.history == db.history[j := db.history[j] + [r]]
    requires db'.records.Keys == db.records.Keys && db'.records[j].record == r
    requires forall i | i in db.records && i != j :: db'.records[i] == db.records[i]
    requires db'.clock == db.clock && db'.serial == db.serial
    ensures HistoryInv(db') && Grows(db, db')
  {
    hide GoodHistory, Transition, RecordBelow, Grows;
    GoodExtends(j, db.history[j], db.serial, r);
    LongerGrows(db, db', j, r);
    forall i | i in db'.history ensures GoodHistory(i, db'.history[i], db'.serial) {
      if i != j { assert GoodHistory(i, db.history[i], db.serial); }
    }
  }

  lemma SaveKeepsHistory(db: Db, db': Db, ttl: nat, r: Record, base: Record)
    requires HistoryInv(db)
    requires IsVersion(db, r.id, base) && Transition(base, r) && RecordBelow(r, db.serial)
    requires db' == SaveJob(db, ttl, r, base.version).0
    ensures HistoryInv(db') && Grows(db, db')
    ensures SaveJob(db, ttl, r, base.version).1.Saved? ==>
      r.id in db.records && base == Last(db.history[r.id]) && db'.history[r.id] == db.history[r.id] + [r]
  {
    if SaveJob(db, ttl, r, base.version).1.Saved? {
      SavedOverBase(db, ttl, r, base);
      HistoryExtends(db, db', r.id, r);
    }
  }

  lemma SaveKeepsIndex(db: Db, db': Db, ttl: nat, r: Record, expected: nat)
    requires IndexInv(db) && (r.id in db.records ==> db.records[r.id].record.order == r.order)
    requires db' == SaveJob(db, ttl, r, expected).0
    ensures IndexInv(db')
  {
  }

  lemma CreateKeepsHistory(db: Db, db': Db, ttl: nat, r: Record)
    requires HistoryInv(db)
    requires Created(r) && r.id !in db.history && r.id < db.serial && RecordBelow(r, db.serial)
    requires db' == CreateJob(db, ttl, r).0
    ensures HistoryInv(db') && Grows(db, db')
  {
    assert Linear([r]);
  }

  lemma CreateKeepsIndex(db: Db, db': Db, ttl: nat, r: Record)
    requires IndexInv(db)
    requires db' == CreateJob(db, ttl, r).0
    ensures IndexInv(db')
  {
  }

  lemma ElapseKeepsHistory(db: Db, db': Db, until: nat)
    requires HistoryInv(db)
    requires db' == Elapse(db, until)
    ensures HistoryInv(db') && Grows(db, db')
  {
  }

  lemma ElapseKeepsIndex(db: Db, db': Db, until: nat)
    requires IndexInv(db)
    requires db' == Elapse(db, until)
    ensures IndexInv(db')
  {
  }

  /** A step that touches neither records nor index nor histories. */
  ghost predicate Quiet(db: Db, db': Db) {
    && db'.records == db.records && db'.index == db.index && db'.history == db.history
    && db.clock == db'.clock && db.serial <= db'.serial
  }

  lemma QuietKeeps(db: Db, db': Db)
    requires HistoryInv(db) && Quiet(db, db')
    ensures HistoryInv(db') && Grows(db, db')
  {
    forall j | j in db'.history ensures GoodHistory(j, db'.history[j], db'.serial) {
      assert GoodHistory(j, db.history[j], db.serial);
    }
  }

  /** A version that is terminal stays the last one. */
  lemma TerminalIsLast(db: Db, db': Db, j: nat)
    requires HistoryInv(db) && HistoryInv(db') && Grows(db, db') && j in db.history
    ensures db.history[j] != [] && db.history[j] <= db'.history[j]
    ensures IsTerminal(Last(db.history[j]).status) ==> db'.history[j] == db.history[j]
  {
    var h, h' := db.history[j], db'.history[j];
    assert GoodHistory(j, h, db.serial) && GoodHistory(j, h', db'.serial);
    assert h[|h| - 1] == h'[|h| - 1];
    if |h| < |h'| { HistoryFacts(h', |h| - 1); }
  }

  /** A copy stays good while histories grow. */
  lemma CopyPersists(db: Db, db': Db, j: nat, phase: Phase)
    requires HistoryInv(db) && HistoryInv(db') && Grows(db, db') && CopyInv(db, j, phase)
    ensures CopyInv(db', j, phase)
  {
    hide GoodHistory, Prepared, Transition, IndexInv;
    TerminalIsLast(db, db', j);
  }

  // ---- Steps ---------------------------------------------------------------------------------

  /** A step moves at most one worker; the others' copies persist. */
  lemma OneMoved(s: State, s': State, w: nat)
    requires Inv(s) && HistoryInv(s'.db) && IndexInv(s'.db) && Grows(s.db, s'.db)
    requires forall v | v in s'.workers && v != w :: v in s.workers && s'.workers[v] == s.workers[v]
    requires w in s'.workers ==> CopyInv(s'.db, s'.workers[w].job, s'.workers[w].phase)
    ensures Inv(s')
  {
    hide GoodHistory, Prepared, Transition, RecordBelow, TakeOver, Conclude, Begin, IsVersion, Settled;
    forall v | v in s'.workers ensures CopyInv(s'.db, s'.workers[v].job, s'.workers[v].phase) {
      if v != w { CopyPersists(s.db, s'.db, s.workers[v].job, s.workers[v].phase); }
    }
  }

  /** The common case: nothing stored changes, and only w's copy is to be looked at. */
  lemma QuietMove(s: State, s': State, w: nat)
    requires Inv(s) && Quiet(s.db, s'.db)
    requires forall v | v in s'.workers && v != w :: v in s.workers && s'.workers[v] == s.workers[v]
    requires w in s'.workers ==> CopyInv(s'.db, s'.workers[w].job, s'.workers[w].phase)
    ensures Inv(s') && Grows(s.db, s'.db)
  {
    hide GoodHistory, CopyInv;
    QuietKeeps(s.db, s'.db);
    OneMoved(s, s', w);
  }

  lemma QuietStep(s: State, s': State, w: nat)
    requires Inv(s) && Quiet(s.db, s'.db)
    requires forall v | v in s'.workers && v != w :: v in s.workers && s'.workers[v] == s.workers[v]
    requires w in s'.workers ==> CopyInv(s.db, s'.workers[w].job, s'.workers[w].phase)
    ensures Inv(s') && Grows(s.db, s'.db)
  {
    hide GoodHistory, Prepared, Transition, RecordBelow, TakeOver, Conclude, Begin, IsVersion, Settled;
    QuietKeeps(s.db, s'.db);
    if w in s'.workers { CopyPersists(s.db, s'.db, s'.workers[w].job, s'.workers[w].phase); }
    OneMoved(s, s', w);
  }

  /** A step that is not enabled, or only renews, releases or crashes. */
  lemma SamePhase(s: State, s': State, w: nat)
    requires Inv(s) && Quiet(s.db, s'.db)
    requires forall v | v in s'.workers && v != w :: v in s.workers && s'.workers[v] == s.workers[v]
    requires w in s'.workers ==> (w in s.workers && s'.workers[w].job == s.workers[w].job
      && (s'.workers[w].phase == s.workers[w].phase || s'.workers[w].phase.Releasing? || s'.workers[w].phase.Claimed?))
    ensures Inv(s') && Grows(s.db, s'.db)
  {
    hide GoodHistory, Prepared, Transition, RecordBelow, TakeOver, Conclude, Begin, IsVersion, Settled;
    if w in s'.workers { assert CopyInv(s.db, s.workers[w].job, s.workers[w].phase); }
    QuietStep(s, s', w);
  }

  lemma TickKeeps(cfg: Config, s: State, s': State, until: nat)
    requires Inv(s) && s' == Step(cfg, s, Tick(until))
    ensures Inv(s') && Grows(s.db, s'.db)
  {
    ElapseKeepsHistory(s.db, s'.db, until);
    ElapseKeepsIndex(s.db, s'.db, until);
    forall v | v in s'.workers ensures CopyInv(s'.db, s'.workers[v].job, s'.workers[v].phase) {
      CopyPersists(s.db, s'.db, s.workers[v].job, s.workers[v].phase);
    }
  }

  lemma SubmitKeeps(cfg: Config, s: State, s': State, order: Order, execution: string, parent: string, at: nat)
    requires Inv(s) && s' == DoSubmit(cfg, s, order, execution, parent, at)
    ensures Inv(s') && Grows(s.db, s'.db)
  {
    var db := TakeSerial(s.db);
    QuietKeeps(s.db, db);
    var r := NewRecord(s.db.serial, order, RequestId(execution, Generated(s.db.serial)), RequestId(parent, NoId), at);
    CreateKeepsHistory(db, s'.db, cfg.jobTtl, r);
    CreateKeepsIndex(db, s'.db, cfg.jobTtl, r);
    forall v | v in s'.workers ensures CopyInv(s'.db, s'.workers[v].job, s'.workers[v].phase) {
      CopyPersists(s.db, s'.db, s.workers[v].job, s.workers[v].phase);
    }
  }

  /** What a fetched record gives: its own version, or the takeover of the attempt found running. */
  lemma FetchedCopy(db: Db, db': Db, j: nat, at: nat)
    requires HistoryInv(db) && j in db.records && !IsTerminal(db.records[j].record.status)
    requires Quiet(db, db')
    ensures !db.records[j].record.status.Running? ==> PreparedCopy(db', j, db.records[j].record)
    ensures db.records[j].record.status.Running? && db'.serial == db.serial + 1
      ==> PreparedCopy(db', j, TakeOver(db.records[j].record, db.serial, at))
  {
    hide Transition, Created;
    var h := db.history[j];
    var b := Last(h);
    HistoryFacts(h, |h| - 1);
    assert RecordBelow(h[|h| - 1], db.serial);
    if b.status.Running? && db'.serial == db.serial + 1 {
      TakeOverPrepares(b, db.serial, at);
    }
  }

  lemma FetchKeeps(cfg: Config, s: State, s': State, w: nat, answered: bool, at: nat)
    requires Inv(s) && w in s.workers && s' == DoFetch(cfg, s, w, s.workers[w], answered, at)
    ensures Inv(s') && Grows(s.db, s'.db)
  {
    hide GoodHistory, Prepared, Transition, RecordBelow, TakeOver;
    var me := s.workers[w];
    if answered && me.job in s.db.records && !IsTerminal(s.db.records[me.job].record.status) {
      FetchedCopy(s.db, s'.db, me.job, at);
    }
    QuietMove(s, s', w);
  }

  lemma SaveKeeps(db: Db, db': Db, ttl: nat, r: Record, base: Record)
    requires HistoryInv(db) && IndexInv(db)
    requires IsVersion(db, r.id, base) && Transition(base, r) && RecordBelow(r, db.serial)
    requires db' == SaveJob(db, ttl, r, base.version).0
    ensures HistoryInv(db') && IndexInv(db') && Grows(db, db')
  {
    SaveKeepsHistory(db, db', ttl, r, base);
    if SaveJob(db, ttl, r, base.version).1.Saved? { SavedOverBase(db, ttl, r, base); }
    if r.id in db.records && db.records[r.id].record.order != r.order { assert db' == db; }
    else { SaveKeepsIndex(db, db', ttl, r, base.version); }
  }

  /** The worker's copy right after its save was confirmed. */
  lemma SavedCopy(db: Db, db': Db, ttl: nat, r: Record, base: Record)
    requires HistoryInv(db)
    requires IsVersion(db, r.id, base) && Transition(base, r) && RecordBelow(r, db.serial)
    requires (db', Saved) == SaveJob(db, ttl, r, base.version)
    ensures CopyInv(db', r.id, if r.status.Running? then Started(r) else AfterOutcome(r))
  {
    hide RecordBelow, GoodHistory;
    SaveKeepsHistory(db, db', ttl, r, base);
    SavedOverBase(db, ttl, r, base);
  }

  lemma SavingKeeps(cfg: Config, s: State, s': State, w: nat, r: Record, base: Record)
    requires Inv(s) && w in s.workers && s.workers[w].job == r.id
    requires IsVersion(s.db, r.id, base) && Transition(base, r) && RecordBelow(r, s.db.serial)
    requires s'.db == s.db || s'.db == SaveJob(s.db, cfg.jobTtl, r, base.version).0
    requires forall v | v in s'.workers && v != w :: v in s.workers && s'.workers[v] == s.workers[v]
    requires w in s'.workers && s'.workers[w].job == r.id
    requires s'.workers[w].phase.Releasing?
      || ((s'.db, Saved) == SaveJob(s.db, cfg.jobTtl, r, base.version)
          && s'.workers[w].phase == (if r.status.Running? then Started(r) else AfterOutcome(r)))
    ensures Inv(s') && Grows(s.db, s'.db)
  {
    if s'.db != s.db {
      SaveKeeps(s.db, s'.db, cfg.jobTtl, r, base);
    } else {
      QuietKeeps(s.db, s'.db);
    }
    if !s'.workers[w].phase.Releasing? { SavedCopy(s.db, s'.db, cfg.jobTtl, r, base); }
    assert CopyInv(s.db, s.workers[w].job, s.workers[w].phase);
    OneMoved(s, s', w);
  }

  lemma BeginBelow(r: Record, at: nat, n: nat)
    requires RecordBelow(r, n)
    ensures RecordBelow(Begin(r, at).(version := r.version + 1), n)
  {
  }

  lemma SaveRunningKeeps(cfg: Config, s: State, s': State, w: nat, reply: Reply, at: nat)
    requires Inv(s) && w in s.workers && s.workers[w].phase.Slotted?
    requires s' == DoSaveRunning(cfg, s, w, s.workers[w], reply, at)
    ensures Inv(s') && Grows(s.db, s'.db)
  {
    var copy := s.workers[w].phase.record;
    var base := PreparedBase(s, w, copy, at);
    hide Inv, Grows, Transition, RecordBelow, IsVersion, SaveJob, Begin;
    SavingKeeps(cfg, s, s', w, Begin(copy, at).(version := copy.version + 1), base);
  }

  /** The version that a worker about to run replaces. */
  lemma PreparedBase(s: State, w: nat, copy: Record, at: nat) returns (base: Record)
    requires Inv(s) && w in s.workers && s.workers[w].phase == Slotted(copy)
    ensures var r := Begin(copy, at).(version := copy.version + 1);
      && s.workers[w].job == r.id && r.status == Running && IsVersion(s.db, r.id, base) && base.version == copy.version
      && Transition(base, r) && RecordBelow(r, s.db.serial)
  {
    hide Transition, Created, IndexInv;
    var j := s.workers[w].job;
    assert CopyInv(s.db, j, s.workers[w].phase);
    base := BaseOf(s.db, j, copy);
    assert GoodHistory(j, s.db.history[j], s.db.serial);
    HistoryFacts(s.db.history[j], copy.version - 1);
    BeginStarts(base, copy, at);
    BeginBelow(copy, at, s.db.serial);
  }

  lemma SaveOutcomeKeeps(cfg: Config, s: State, s': State, w: nat, reply: Reply)
    requires Inv(s) && w in s.workers && s.workers[w].phase.Executed?
    requires s' == DoSaveOutcome(cfg, s, w, s.workers[w], reply)
    ensures Inv(s') && Grows(s.db, s'.db)
  {
    var copy := s.workers[w].phase.record;
    var base := ConcludedBase(s, w, copy);
    hide Inv, Grows, Transition, RecordBelow, IsVersion, SaveJob, AfterOutcome;
    var r := copy.(version := copy.version + 1);
    var me' := s.workers[w].(phase := if reply.Answered? && SaveJob(s.db, cfg.jobTtl, r, copy.version).1.Saved? then AfterOutcome(r) else Releasing);
    assert s'.workers == s.workers[w := me'];
    assert s'.db == s.db || s'.db == SaveJob(s.db, cfg.jobTtl, r, copy.version).0;
    assert me'.phase.Releasing? || s'.db == SaveJob(s.db, cfg.jobTtl, r, copy.version).0;
    hide DoSaveOutcome;
    SavingKeeps(cfg, s, s', w, r, base);
  }

  /** The version that a worker with a finished run is about to replace. */
  lemma ConcludedBase(s: State, w: nat, copy: Record) returns (base: Record)
    requires Inv(s) && w in s.workers && s.workers[w].phase == Executed(copy)
    ensures s.workers[w].job == copy.id && copy.status != Running && IsVersion(s.db, copy.id, base) && base.version == copy.version
    ensures Transition(base, copy.(version := copy.version + 1)) && RecordBelow(copy.(version := copy.version + 1), s.db.serial)
  {
    hide Transition, Created, IndexInv;
    var j := s.workers[w].job;
    assert CopyInv(s.db, j, s.workers[w].phase);
    base := BaseOf(s.db, j, copy);
    assert GoodHistory(j, s.db.history[j], s.db.serial);
    HistoryFacts(s.db.history[j], copy.version - 1);
  }

  lemma GoodVersion(db: Db, j: nat, r: Record)
    requires HistoryInv(db) && IsVersion(db, j, r)
    ensures WellLogged(r) && r.id == j && RecordBelow(r, db.serial) && NewId(r, Generated(db.serial))
  {
    assert GoodHistory(j, db.history[j], db.serial);
    assert RecordBelow(db.history[j][r.version - 1], db.serial);
    HistoryFacts(db.history[j], r.version - 1);
  }

  lemma ConcludeBelow(r: Record, result: RunResult, serial: nat, at: nat)
    requires RecordBelow(r, serial)
    ensures var c := Conclude(r, result, serial, at);
      && c.id == r.id && c.version == r.version && c.status != Running
      && RecordBelow(c, if c.status.Retrying? then serial + 1 else serial)
  {
  }

  lemma FinishRunKeeps(s: State, s': State, w: nat, result: RunResult, at: nat)
    requires Inv(s) && w in s.workers && s.workers[w].phase.Executing?
    requires s' == DoFinishRun(s, w, s.workers[w], result, at)
    ensures Inv(s') && Grows(s.db, s'.db)
  {
    hide GoodHistory, Conclude, Transition, Prepared;
    var me := s.workers[w];
    var r := me.phase.record;
    GoodVersion(s.db, me.job, r);
    ConcludeFinishes(r, result, s.db.serial, at);
    ConcludeBelow(r, result, s.db.serial, at);
    QuietMove(s, s', w);
  }

  lemma DeliveryKeeps(s: State, s': State, w: nat)
    requires Inv(s) && Quiet(s.db, s'.db)
    requires forall v | v in s'.workers && v != w :: v in s.workers && s'.workers[v] == s.workers[v]
    requires w in s'.workers && w !in s.workers ==>
      (s'.workers[w].phase.Scanning? || s'.workers[w].phase.Delivered?) && s'.workers[w].job in s.db.history
    requires w in s'.workers && w in s.workers ==> s'.workers[w] == s.workers[w]
    ensures Inv(s') && Grows(s.db, s'.db)
  {
    hide GoodHistory, Prepared, Transition, RecordBelow, TakeOver, Conclude, Begin, IsVersion, Settled;
    if w in s.workers { SamePhase(s, s', w); } else { QuietStep(s, s', w); }
  }

  lemma LeaseStepKeeps(cfg: Config, s: State, s': State, w: nat, reply: Reply)
    requires Inv(s) && w in s.workers
    requires (s.workers[w].phase.Fetched? && s' == DoClaimReview(cfg, s, w, s.workers[w], reply))
      || (s.workers[w].phase.Reviewed? && s' == DoTakeSlot(cfg, s, w, s.workers[w], reply))
    ensures Inv(s') && Grows(s.db, s'.db)
  {
    hide GoodHistory, PreparedCopy, ConcludedCopy, IsVersion, Settled, IndexInv, HistoryInv, Grows;
    hide Leases.SetNX, Leases.Renew, Leases.Release, Semaphore.Acquire, Semaphore.Renew, Semaphore.Release;
    assert CopyInv(s.db, s.workers[w].job, s.workers[w].phase);
    QuietStep(s, s', w);
  }

  lemma HeartbeatKeeps(cfg: Config, s: State, s': State, w: nat, reply: Reply)
    requires Inv(s) && w in s.workers && s.workers[w].phase.Executing? && !s.workers[w].phase.beat.Cancelled?
    requires s.workers[w].claim.Some? && s.workers[w].review.Some? && s.workers[w].slot.Some?
    requires s' == DoHeartbeat(cfg, s, w, s.workers[w], reply)
    ensures Inv(s') && Grows(s.db, s'.db)
  {
    hide GoodHistory, PreparedCopy, ConcludedCopy, IsVersion, Settled, IndexInv, HistoryInv, Grows;
    hide Leases.SetNX, Leases.Renew, Leases.Release, Semaphore.Acquire, Semaphore.Renew, Semaphore.Release;
    assert CopyInv(s.db, s.workers[w].job, s.workers[w].phase);
    QuietStep(s, s', w);
  }

  lemma ScanKeeps(cfg: Config, s: State, s': State, w: nat, answered: bool)
    requires Inv(s) && w in s.workers && s.workers[w].phase.Scanning?
    requires s' == DoScan(cfg, s, w, s.workers[w], answered)
    ensures Inv(s') && Grows(s.db, s'.db)
  {
    hide GoodHistory, IndexInv, PreparedCopy, ConcludedCopy, IsVersion, Grows;
    assert CopyInv(s.db, s.workers[w].job, s.workers[w].phase);
    QuietStep(s, s', w);
  }

  lemma StartRunKeeps(s: State, s': State, w: nat)
    requires Inv(s) && w in s.workers && s.workers[w].phase.Started? && s' == DoStartRun(s, w, s.workers[w])
    ensures Inv(s') && Grows(s.db, s'.db)
  {
    assert CopyInv(s.db, s.workers[w].job, s.workers[w].phase);
    QuietStep(s, s', w);
  }

  lemma BuryKeeps(cfg: Config, s: State, s': State, w: nat, reply: Reply)
    requires Inv(s) && w in s.workers && s.workers[w].phase.Burying? && s' == Step(cfg, s, Bury(w, reply))
    ensures Inv(s') && Grows(s.db, s'.db)
  {
    hide GoodHistory, IndexInv, PreparedCopy, ConcludedCopy, IsVersion, Grows;
    var me := s.workers[w];
    assert s' == With(s, Outcome(reply, s.db, BuryJob(s.db, me.phase.record)), w, me.(phase := Acking));
    hide Step, WorkerStep;
    assert CopyInv(s.db, me.job, me.phase);
    QuietStep(s, s', w);
  }

  lemma LeaseAndPlainStepKeeps(cfg: Config, s: State, s': State, e: Event)
    requires e.ClaimReview? || e.TakeSlot? || e.Heartbeat? || e.Scan? || e.StartRun? || e.Bury?
    requires Inv(s) && s' == Step(cfg, s, e)
    ensures Inv(s') && Grows(s.db, s'.db)
  {
    hide GoodHistory, Prepared, Transition, RecordBelow, TakeOver, Conclude, Begin, IsVersion, Settled;
    if s' == s { SamePhase(s, s', e.w); } else {
      match e
      case ClaimReview(w, reply) => LeaseStepKeeps(cfg, s, s', w, reply);
      case TakeSlot(w, reply) => LeaseStepKeeps(cfg, s, s', w, reply);
      case Heartbeat(w, reply) => HeartbeatKeeps(cfg, s, s', w, reply);
      case Scan(w, answered) => ScanKeeps(cfg, s, s', w, answered);
      case StartRun(w) => StartRunKeeps(s, s', w);
      case Bury(w, reply) => BuryKeeps(cfg, s, s', w, reply);
    }
  }

  lemma ClaimKeeps(cfg: Config, s: State, s': State, w: nat, reply: Reply)
    requires Inv(s) && w in s.workers && s' == DoClaim(cfg, s, w, s.workers[w], reply)
    ensures Inv(s') && Grows(s.db, s'.db)
  {
    hide Inv, Grows, Leases.SetNX;
    SamePhase(s, s', w);
  }

  lemma ReleaseNextKeeps(s: State, s': State, w: nat, reply: Reply)
    requires Inv(s) && w in s.workers && s' == DoReleaseNext(s, w, s.workers[w], reply)
    ensures Inv(s') && Grows(s.db, s'.db)
  {
    hide Inv, Grows, ReleaseClaim, ReleaseReview, ReleaseSlot;
    var me := s.workers[w];
    if me.slot.Some? {
      assert Quiet(s.db, ReleaseSlot(s.db, me.slot.value.scope, me.slot.value.token)) by { SlotQuiet(s.db, me.slot.value.scope, me.slot.value.token); }
    } else if me.review.Some? {
      assert Quiet(s.db, ReleaseReview(s.db, me.review.value.key, me.review.value.token)) by { LeaseQuiet(s.db, me.job, me.review.value.key, me.review.value.token); }
    } else if me.claim.Some? {
      LeaseQuiet(s.db, me.job, (0, 0), me.claim.value);
    }
    SamePhase(s, s', w);
  }

  lemma SlotQuiet(db: Db, scope: ScopeKey, token: nat)
    ensures Quiet(db, ReleaseSlot(db, scope, token))
  {
    hide Semaphore.Release;
  }

  lemma LeaseQuiet(db: Db, job: nat, key: ReviewKey, token: nat)
    ensures Quiet(db, ReleaseClaim(db, job, token)) && Quiet(db, ReleaseReview(db, key, token))
  {
    hide Leases.Release;
  }

  lemma ReleasingStepKeeps(cfg: Config, s: State, s': State, e: Event)
    requires e.Claim? || e.Ack? || e.ReleaseNext? || e.Crash?
    requires Inv(s) && s' == Step(cfg, s, e)
    ensures Inv(s') && Grows(s.db, s'.db)
  {
    hide Inv, Grows;
    if s' == s { SamePhase(s, s', e.w); } else {
      match e
      case Claim(w, reply) => ClaimKeeps(cfg, s, s', w, reply);
      case Ack(w, reply) => SamePhase(s, s', w);
      case ReleaseNext(w, reply) => ReleaseNextKeeps(s, s', w, reply);
      case Crash(w) => SamePhase(s, s', w);
    }
  }

  lemma RecordStepKeeps(cfg: Config, s: State, s': State, e: Event)
    requires e.Fetch? || e.SaveRunning? || e.FinishRun? || e.SaveOutcome?
    requires Inv(s) && s' == Step(cfg, s, e)
    ensures Inv(s') && Grows(s.db, s'.db)
  {
    hide GoodHistory, Prepared, Transition, RecordBelow, TakeOver, Conclude, Begin, IsVersion, Settled;
    if s' == s { SamePhase(s, s', e.w); } else {
      match e
      case Fetch(w, answered, at) => FetchKeeps(cfg, s, s', w, answered, at);
      case SaveRunning(w, reply, at) => SaveRunningKeeps(cfg, s, s', w, reply, at);
      case FinishRun(w, result, at) => FinishRunKeeps(s, s', w, result, at);
      case SaveOutcome(w, reply) => SaveOutcomeKeeps(cfg, s, s', w, reply);
    }
  }

  lemma StepKeeps(cfg: Config, s: State, s': State, e: Event)
    requires Inv(s) && EntriesInv(s) && s' == Step(cfg, s, e)
    ensures Inv(s') && Grows(s.db, s'.db)
  {
    hide HistoryInv, IndexInv, CopiesInv, Grows, CreateJob, SaveJob;
    match e
    case Tick(until) => TickKeeps(cfg, s, s', until);
    case Submit(order, execution, parent, at, applied) =>
      if applied { SubmitKeeps(cfg, s, s', order, execution, parent, at); } else { SamePhase(s, s', 0); }
    case Deliver(w, _) => DeliveryKeeps(s, s', w);
    case AutoClaim(w, _, _) => DeliveryKeeps(s, s', w);
    case Fetch(_, _, _) => RecordStepKeeps(cfg, s, s', e);
    case SaveRunning(_, _, _) => RecordStepKeeps(cfg, s, s', e);
    case FinishRun(_, _, _) => RecordStepKeeps(cfg, s, s', e);
    case SaveOutcome(_, _) => RecordStepKeeps(cfg, s, s', e);
    case Claim(_, _) => ReleasingStepKeeps(cfg, s, s', e);
    case Ack(_, _) => ReleasingStepKeeps(cfg, s, s', e);
    case ReleaseNext(_, _) => ReleasingStepKeeps(cfg, s, s', e);
    case Crash(_) => ReleasingStepKeeps(cfg, s, s', e);
    case _ => LeaseAndPlainStepKeeps(cfg, s, s', e);
  }
}
