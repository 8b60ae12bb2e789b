/** The job record, what a worker does to it in memory, and the history of the versions ever stored. */
module JobRecord {
  import opened Options

  datatype Status = Pending | Running | Retrying | Succeeded | Incomplete | Failed

  /** Why an execution or a job failed. */
  datatype Cause = NoError | LeaseExpired | RunError(message: string)

  /** An execution id comes with the request or is generated; generated ids are fresh. */
  datatype ExecutionId = NoId | Requested(name: string) | Generated(serial: nat)

  datatype ExecutionAttempt = ExecutionAttempt(
    attempt: nat,
    executionId: ExecutionId,
    parentExecutionId: ExecutionId,
    status: Status,
    error: Cause,
    startedAt: nat,
    finishedAt: Option<nat>)

  /** What a request fixes for the whole life of a job. */
  datatype Order = Order(store: int, review: int, scope: string, source: string, maxRetries: nat)

  datatype Record = Record(
    id: nat,
    order: Order,
    executionId: ExecutionId,
    parentExecutionId: ExecutionId,
    status: Status,
    attempts: nat,
    error: Cause,
    completed: Option<bool>,
    executions: seq<ExecutionAttempt>,
    updatedAt: nat,
    startedAt: Option<nat>,
    finishedAt: Option<nat>,
    version: nat)

  /** What the agent run hands back: a result with its Completed flag, or an error. */
  datatype RunResult = Ran(completed: bool) | Crashed(message: string)

  predicate IsTerminal(s: Status) {
    s.Succeeded? || s.Incomplete? || s.Failed?
  }

  // ---- What a worker does in memory ----------------------------------------------------------

  function NewRecord(id: nat, order: Order, executionId: ExecutionId, parent: ExecutionId, at: nat): Record {
    Record(id, order, executionId, parent, Pending, 0, NoError, None, [], at, None, None, 1)
  }

  function FinishLatest(r: Record, status: Status, error: Cause, at: nat): Record {
    if r.executions == [] then r else
    var last := r.executions[|r.executions| - 1].(status := status, error := error, finishedAt := Some(at));
    r.(executions := r.executions[|r.executions| - 1 := last])
  }

  /** Closes the attempt of a worker that disappeared and moves on to a fresh execution id. */
  function TakeOver(r: Record, serial: nat, at: nat): Record {
    FinishLatest(r, Failed, LeaseExpired, at).(
      parentExecutionId := r.executionId, executionId := Generated(serial), status := Retrying, error := LeaseExpired)
  }

  function Begin(r: Record, at: nat): Record {
    r.(status := Running, attempts := r.attempts + 1, updatedAt := at, startedAt := Some(at), error := NoError,
       executions := r.executions + [ExecutionAttempt(r.attempts + 1, r.executionId, r.parentExecutionId, Running, NoError, at, None)])
  }

  function Conclude(r: Record, result: RunResult, serial: nat, at: nat): Record {
    match result
    case Ran(completed) =>
      var status := if completed then Succeeded else Incomplete;
      FinishLatest(r.(status := status, completed := Some(completed), updatedAt := at, finishedAt := Some(at)), status, NoError, at)
    case Crashed(message) =>
      var failed := FinishLatest(r.(error := RunError(message)), Failed, RunError(message), at);
      if r.attempts <= r.order.maxRetries then
        failed.(parentExecutionId := r.executionId, executionId := Generated(serial), status := Retrying, updatedAt := at)
      else
        failed.(status := Failed, updatedAt := at, finishedAt := Some(at))
  }

  // ---- The log invariant ---------------------------------------------------------------------

  /** Attempts that ended because their worker disappeared. */
  function Takeovers(log: seq<ExecutionAttempt>): nat {
    if log == [] then 0
    else Takeovers(log[..|log| - 1]) + if log[|log| - 1].error.LeaseExpired? then 1 else 0
  }

  ghost predicate ChainedLog(log: seq<ExecutionAttempt>) {
    && (forall i | 0 <= i < |log| :: log[i].attempt == i + 1)
    && (forall i | 0 < i < |log| :: log[i].parentExecutionId == log[i - 1].executionId)
    && (forall i | 0 <= i < |log| - 1 :: log[i].status == Failed)
    && (forall i, j | 0 <= i < j < |log| :: log[i].executionId != log[j].executionId)
  }

  /** The log agrees with the record's status and with its current execution. */
  ghost predicate LogMatches(r: Record) {
    var log := r.executions;
    match r.status
    case Pending => log == []
    case Retrying =>
      && log != [] && log[|log| - 1].status == Failed && r.parentExecutionId == log[|log| - 1].executionId
      && forall i | 0 <= i < |log| :: log[i].executionId != r.executionId
    case _ => log != [] && log[|log| - 1].status == r.status && log[|log| - 1].executionId == r.executionId && !log[|log| - 1].error.LeaseExpired?
  }

  ghost predicate WithinBudget(r: Record) {
    && r.attempts <= r.order.maxRetries + 1 + Takeovers(r.executions)
    && (r.status.Pending? || r.status.Retrying? ==> r.attempts <= r.order.maxRetries)
    && (r.status.Failed? ==> r.attempts > r.order.maxRetries)
  }

  ghost predicate WellLogged(r: Record) {
    && r.attempts == |r.executions|
    && ChainedLog(r.executions)
    && LogMatches(r)
    && WithinBudget(r)
  }

  // ---- Histories -----------------------------------------------------------------------------

  ghost predicate NewId(r: Record, id: ExecutionId) {
    id != r.executionId && forall i | 0 <= i < |r.executions| :: r.executions[i].executionId != id
  }

  /** Generated ids come from one counter. */
  ghost predicate IdBelow(id: ExecutionId, n: nat) {
    id.Generated? ==> id.serial < n
  }

  ghost predicate RecordBelow(r: Record, n: nat) {
    && IdBelow(r.executionId, n)
    && forall i | 0 <= i < |r.executions| :: IdBelow(r.executions[i].executionId, n)
  }

  ghost predicate ClosesLast(a: Record, log: seq<ExecutionAttempt>, status: Status, error: Cause) {
    && |log| == |a.executions| > 0
    && log[..|log| - 1] == a.executions[..|log| - 1]
    && log[|log| - 1].status == status && log[|log| - 1].error == error
    && log[|log| - 1].attempt == a.executions[|log| - 1].attempt
    && log[|log| - 1].executionId == a.executions[|log| - 1].executionId
    && log[|log| - 1].parentExecutionId == a.executions[|log| - 1].parentExecutionId
  }

  /** A run starts: from a waiting record as it stands, from a RUNNING one by closing the attempt found there. */
  ghost predicate Starts(a: Record, b: Record) {
    && !IsTerminal(a.status)
    && b.status == Running
    && b.attempts == a.attempts + 1
    && |b.executions| == |a.executions| + 1
    && var entry := b.executions[|a.executions|];
    && entry.attempt == b.attempts && entry.executionId == b.executionId
    && entry.parentExecutionId == b.parentExecutionId && entry.status == Running && entry.error == NoError
    && (if a.status.Running? then
          && ClosesLast(a, b.executions[..|a.executions|], Failed, LeaseExpired)
          && b.parentExecutionId == a.executionId && NewId(a, b.executionId)
        else
          && b.executions[..|a.executions|] == a.executions
          && b.parentExecutionId == a.parentExecutionId && b.executionId == a.executionId)
  }

  /** A run ends: with its result, with another attempt to come, or for good. */
  ghost predicate Finishes(a: Record, b: Record) {
    && a.status == Running
    && b.attempts == a.attempts
    && match b.status
       case Succeeded => ClosesLast(a, b.executions, Succeeded, NoError) && b.executionId == a.executionId && b.completed == Some(true)
       case Incomplete => ClosesLast(a, b.executions, Incomplete, NoError) && b.executionId == a.executionId && b.completed == Some(false)
       case Failed =>
         && b.error.RunError? && ClosesLast(a, b.executions, Failed, b.error)
         && b.executionId == a.executionId && a.attempts > a.order.maxRetries
       case Retrying =>
         && b.error.RunError? && ClosesLast(a, b.executions, Failed, b.error)
         && b.parentExecutionId == a.executionId && NewId(a, b.executionId) && a.attempts <= a.order.maxRetries
       case _ => false
  }

  ghost predicate Transition(a: Record, b: Record) {
    && b.id == a.id && b.order == a.order
    && b.version == a.version + 1
    && (Starts(a, b) || Finishes(a, b))
  }

  ghost predicate Created(r: Record) {
    r.status == Pending && r.attempts == 0 && r.executions == [] && r.version == 1
  }

  /** One linear path: every stored version was computed from the one stored before it. */
  ghost predicate Linear(h: seq<Record>) {
    && h != [] && Created(h[0])
    && forall i | 0 < i < |h| :: Transition(h[i - 1], h[i])
  }

  // ---- What follows from linearity -----------------------------------------------------------

  lemma SamePrefix(xs: seq<ExecutionAttempt>, ys: seq<ExecutionAttempt>, n: nat)
    requires n <= |xs| && n <= |ys| && xs[..n] == ys[..n]
    ensures forall i | 0 <= i < n :: xs[i] == ys[i]
  {
    forall i | 0 <= i < n ensures xs[i] == ys[i] {
      assert xs[i] == xs[..n][i] == ys[..n][i];
    }
  }

  lemma ClosingKeepsIds(a: Record, log: seq<ExecutionAttempt>, status: Status, error: Cause)
    requires ClosesLast(a, log, status, error)
    ensures forall i | 0 <= i < |log| ::
              && log[i].attempt == a.executions[i].attempt && log[i].executionId == a.executions[i].executionId
              && log[i].parentExecutionId == a.executions[i].parentExecutionId
              && (i < |log| - 1 ==> log[i].status == a.executions[i].status)
  {
    SamePrefix(log, a.executions, |log| - 1);
  }

  lemma ClosingKeepsChain(a: Record, log: seq<ExecutionAttempt>, status: Status, error: Cause)
    requires ChainedLog(a.executions) && ClosesLast(a, log, status, error)
    ensures ChainedLog(log)
    ensures forall i | 0 <= i < |log| :: log[i].executionId == a.executions[i].executionId
  {
    ClosingKeepsIds(a, log, status, error);
    hide ClosesLast, Takeovers;
  }

  lemma ClosingCountsTakeovers(a: Record, log: seq<ExecutionAttempt>, status: Status, error: Cause)
    requires ClosesLast(a, log, status, error)
    ensures Takeovers(log) == Takeovers(a.executions[..|log| - 1]) + if error.LeaseExpired? then 1 else 0
    ensures !a.executions[|log| - 1].error.LeaseExpired? ==> Takeovers(a.executions[..|log| - 1]) == Takeovers(a.executions)
  {
  }

  lemma AppendingCountsTakeovers(log: seq<ExecutionAttempt>, entry: ExecutionAttempt)
    ensures Takeovers(log + [entry]) == Takeovers(log) + if entry.error.LeaseExpired? then 1 else 0
  {
    assert (log + [entry])[..|log|] == log;
  }

  lemma AppendingKeepsChain(log: seq<ExecutionAttempt>, entry: ExecutionAttempt)
    requires ChainedLog(log)
    requires log != [] ==> log[|log| - 1].status == Failed && entry.parentExecutionId == log[|log| - 1].executionId
    requires entry.attempt == |log| + 1
    requires forall i | 0 <= i < |log| :: log[i].executionId != entry.executionId
    ensures ChainedLog(log + [entry])
  {
    var all := log + [entry];
    assert forall i | 0 <= i < |log| :: all[i] == log[i];
    assert all[|log|] == entry;
  }

  lemma StartKeepsChain(a: Record, b: Record)
    requires WellLogged(a) && Starts(a, b)
    ensures ChainedLog(b.executions)
  {
    hide WithinBudget;
    var n := |a.executions|;
    var log := b.executions[..n];
    if a.status.Running? { ClosingKeepsChain(a, log, Failed, LeaseExpired); }
    AppendingKeepsChain(log, b.executions[n]);
    assert b.executions == log + [b.executions[n]];
  }

  /** A takeover adds one to the attempts and one to what a record may have. */
  lemma StartKeepsBudget(a: Record, b: Record)
    requires WellLogged(a) && Starts(a, b) && a.order == b.order
    ensures WithinBudget(b)
  {
    hide ChainedLog;
    var n := |a.executions|;
    var log := b.executions[..n];
    if a.status.Running? { ClosingCountsTakeovers(a, log, Failed, LeaseExpired); }
    AppendingCountsTakeovers(log, b.executions[n]);
    assert b.executions == log + [b.executions[n]];
    hide Takeovers;
  }

  lemma StartKeepsLog(a: Record, b: Record)
    requires WellLogged(a) && Starts(a, b) && a.order == b.order
    ensures WellLogged(b)
  {
    StartKeepsChain(a, b);
    StartKeepsBudget(a, b);
    hide ChainedLog, WithinBudget;
  }

  lemma FinishKeepsLog(a: Record, b: Record)
    requires WellLogged(a) && Finishes(a, b) && a.order == b.order
    ensures WellLogged(b)
  {
    var last := b.executions[|b.executions| - 1];
    ClosingKeepsChain(a, b.executions, last.status, last.error);
    ClosingCountsTakeovers(a, b.executions, last.status, last.error);
  }

  lemma TransitionKeepsLog(a: Record, b: Record)
    requires WellLogged(a) && Transition(a, b)
    ensures WellLogged(b)
  {
    if Starts(a, b) { StartKeepsLog(a, b); } else { FinishKeepsLog(a, b); }
  }

  /** Every version ever stored is well logged, carries its place in the history, and only the last can be terminal. */
  lemma {:induction false} HistoryFacts(h: seq<Record>, i: nat)
    requires Linear(h) && i < |h|
    ensures WellLogged(h[i])
    ensures h[i].version == i + 1 && h[i].id == h[0].id && h[i].order == h[0].order
    ensures i < |h| - 1 ==> !IsTerminal(h[i].status)
  {
    if i > 0 {
      HistoryFacts(h, i - 1);
      TransitionKeepsLog(h[i - 1], h[i]);
    }
    if i < |h| - 1 { assert Transition(h[i], h[i + 1]); }
  }

  lemma {:induction false} AttemptsGrow(h: seq<Record>, i: nat, k: nat)
    requires Linear(h) && i <= k < |h|
    ensures h[i].attempts <= h[k].attempts
    ensures i < k && h[k].status == Running ==> h[i].attempts < h[k].attempts
    decreases k - i
  {
    if i < k {
      AttemptsGrow(h, i, k - 1);
      assert Transition(h[k - 1], h[k]);
    }
  }

  /** An attempt number is stored as RUNNING in exactly one version. */
  lemma OneRunningVersionPerAttempt(h: seq<Record>, i: nat, k: nat)
    requires Linear(h) && i < |h| && k < |h|
    requires h[i].status == Running && h[k].status == Running && h[i].attempts == h[k].attempts
    ensures i == k
  {
    if i < k { AttemptsGrow(h, i, k); } else if k < i { AttemptsGrow(h, k, i); }
  }

  lemma LinearExtends(h: seq<Record>, r: Record)
    requires Linear(h) && Transition(h[|h| - 1], r)
    ensures Linear(h + [r])
  {
  }

  // ---- The worker's edits are the transitions ------------------------------------------------

  /** What a worker carries between reading version b and saving RUNNING. */
  ghost predicate Prepared(b: Record, r: Record) {
    && r.version == b.version && r.id == b.id && r.order == b.order
    && !IsTerminal(b.status)
    && if b.status.Running? then
         && r.status == Retrying && r.attempts == b.attempts && ClosesLast(b, r.executions, Failed, LeaseExpired)
         && r.parentExecutionId == b.executionId && NewId(b, r.executionId)
       else r == b
  }

  lemma TakeOverPrepares(b: Record, serial: nat, at: nat)
    requires b.status == Running && WellLogged(b) && NewId(b, Generated(serial))
    ensures Prepared(b, TakeOver(b, serial, at))
  {
  }

  lemma BeginStarts(b: Record, r: Record, at: nat)
    requires Prepared(b, r) && WellLogged(b)
    ensures Transition(b, Begin(r, at).(version := b.version + 1))
  {
    var s := Begin(r, at);
    assert s.executions[..|b.executions|] == r.executions;
  }

  lemma ConcludeFinishes(a: Record, result: RunResult, serial: nat, at: nat)
    requires a.status == Running && WellLogged(a) && NewId(a, Generated(serial))
    ensures Transition(a, Conclude(a, result, serial, at).(version := a.version + 1))
  {
  }
}
