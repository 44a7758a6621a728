/** The rows of the persistent command table and the statements the queue runs on them. */
module CommandQueries {
  import opened Common

  type Uuid = string

  datatype CommandState = NewCommand | DoneCommand | ErrorCommand | IgnoreCommand

  // Timestamps count microseconds.
  const MINUTE: int := 60_000_000

  datatype Command = Command(
    state: CommandState,
    component: string,
    attempts: nat,
    maxAttempts: nat,
    createdAt: int,
    updatedAt: int)

  type Table = map<Uuid, Command>

  // How one execution of the worker ended; a crash of the process is not an outcome.
  datatype Outcome = Succeeded | TimedOut | JobFailed(tryAgain: bool) | Raised

  function Backoff(attempts: nat): (d: int)
    ensures d >= 0
  {
    (Pow2(attempts) - 1) * MINUTE
  }

  predicate Open(c: Command) {
    && c.attempts < c.maxAttempts
    && c.state != DoneCommand
    && c.state != IgnoreCommand
  }

  // WHERE clause of the selection.
  predicate Eligible(c: Command, component: string, now: int) {
    && c.component == component
    && Open(c)
    && c.createdAt < now - Backoff(c.attempts)
  }

  // ORDER BY attempts ASC, updated_at DESC: c may come before d.
  predicate NotAfter(c: Command, d: Command) {
    c.attempts < d.attempts || (c.attempts == d.attempts && c.updatedAt >= d.updatedAt)
  }

  // LIMIT 1 FOR UPDATE SKIP LOCKED: u is a possible answer. Ties are broken by the database.
  predicate Selected(rows: Table, locked: set<Uuid>, component: string, now: int, u: Uuid) {
    && u in rows
    && u !in locked
    && Eligible(rows[u], component, now)
    && forall v :: v in rows && v !in locked && Eligible(rows[v], component, now) ==> NotAfter(rows[u], rows[v])
  }

  function StartUpdate(c: Command, attempts: nat, at: int): Command {
    c.(attempts := attempts, updatedAt := at)
  }

  function DoneUpdate(c: Command, attempts: nat, at: int): Command {
    c.(attempts := attempts, state := DoneCommand, updatedAt := at)
  }

  function ErrorUpdate(c: Command, attempts: nat, at: int): Command {
    c.(attempts := attempts, state := ErrorCommand, updatedAt := at)
  }

  function ErrorStopUpdate(c: Command, attempts: nat, at: int): Command {
    c.(attempts := attempts, maxAttempts := attempts, state := ErrorCommand, updatedAt := at)
  }

  // The closing write of one execution. `limit` is the max_attempts of the row as it was selected.
  function ReportUpdate(c: Command, limit: nat, attempt: nat, outcome: Outcome, at: int): Command {
    match outcome
    case Succeeded => DoneUpdate(c, attempt, at)
    case TimedOut => ErrorUpdate(c, attempt, at)
    case JobFailed(tryAgain) =>
      if tryAgain && attempt < limit then ErrorUpdate(c, attempt, at) else ErrorStopUpdate(c, attempt, at)
    case Raised => ErrorUpdate(c, attempt, at)
  }

  /******* What the statements mean, in the columns of a row *******/

  // The row waits for the component, may be attempted again, and its minutes of backoff have passed.
  predicate Due(c: Command, component: string, now: int) {
    && c.component == component
    && (c.state == NewCommand || c.state == ErrorCommand)
    && c.attempts < c.maxAttempts
    && c.createdAt + (Pow2(c.attempts) - 1) * 60_000_000 < now
  }

  // Of the unlocked rows that are due the selection answers one with the fewest attempts and, of those,
  // the latest update.
  lemma SelectedMeans(rows: Table, locked: set<Uuid>, component: string, now: int, u: Uuid)
    ensures Selected(rows, locked, component, now, u) <==>
            && u in rows && u !in locked && Due(rows[u], component, now)
            && forall v :: v in rows && v !in locked && Due(rows[v], component, now) ==>
                 || rows[u].attempts < rows[v].attempts
                 || (rows[u].attempts == rows[v].attempts && rows[v].updatedAt <= rows[u].updatedAt)
  {
    forall v | v in rows ensures Eligible(rows[v], component, now) <==> Due(rows[v], component, now) {
      DueIsEligible(rows[v], component, now);
    }
  }

  lemma DueIsEligible(c: Command, component: string, now: int)
    ensures Eligible(c, component, now) <==> Due(c, component, now)
  {
  }

  // A start counts one attempt more and nothing else.
  lemma StartMeans(c: Command, k: nat, at: int)
    ensures var d := StartUpdate(c, k, at);
            && d.attempts == k && d.updatedAt == at && d.state == c.state && d.maxAttempts == c.maxAttempts
            && d.component == c.component && d.createdAt == c.createdAt
  {
  }

  // A report writes the number of its attempt, done or error, and takes the limit down to that number if
  // the job must not or, by the limit read at the start, cannot be tried again.
  lemma ReportMeans(c: Command, limit: nat, k: nat, outcome: Outcome, at: int)
    ensures var d := ReportUpdate(c, limit, k, outcome, at);
            && d.attempts == k && d.updatedAt == at && d.component == c.component && d.createdAt == c.createdAt
            && d.state == (if outcome == Succeeded then DoneCommand else ErrorCommand)
            && d.maxAttempts == (if outcome.JobFailed? && (!outcome.tryAgain || k >= limit) then k else c.maxAttempts)
  {
  }

  // The selection answers whenever an unlocked row qualifies.
  lemma {:induction false} SelectionTotal(rows: Table, locked: set<Uuid>, component: string, now: int, u: Uuid)
    requires u in rows && u !in locked && Eligible(rows[u], component, now)
    ensures exists v :: Selected(rows, locked, component, now, v)
  {
    var us := set v | v in rows && v !in locked && Eligible(rows[v], component, now);
    assert u in us;
    var v := FirstAmong(rows, us);
    assert Selected(rows, locked, component, now, v);
  }

  lemma {:induction false} FirstAmong(rows: Table, us: set<Uuid>) returns (v: Uuid)
    requires us != {} && us <= rows.Keys
    ensures v in us && forall w :: w in us ==> NotAfter(rows[v], rows[w])
  {
    v :| v in us;
    if us != {v} {
      var w := FirstAmong(rows, us - {v});
      if NotAfter(rows[w], rows[v]) {
        v := w;
      }
    }
  }
}
