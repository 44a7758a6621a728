/** Any number of workers sharing one command table.

    A worker selects a row (which locks it), commits the start, executes without any lock, writes the
    closing update (which locks the row again) and commits it. Steps of different workers interleave
    freely, and a worker may crash in any phase. */
module CommandProtocol {
  import opened Common
  import opened CommandQueries

  type WorkerId = nat

  datatype Phase =
    | Idle
    | Claimed(uuid: Uuid, command: Command)
    | Working(uuid: Uuid, command: Command, attempt: nat)
    | Reported(uuid: Uuid, command: Command, attempt: nat, outcome: Outcome)

  // `pending` holds the uncommitted writes of the worker's transaction; its keys are the rows it locks.
  datatype Worker = Worker(component: string, phase: Phase, pending: Table)

  datatype Event =
    | Started(uuid: Uuid, attempt: nat, at: int)
    | Finished(uuid: Uuid, attempt: nat, outcome: Outcome)

  // `rows` is the committed table, `log` the history of committed starts and finishes.
  datatype State = State(rows: Table, workers: map<WorkerId, Worker>, clock: int, log: seq<Event>)

  datatype Action =
    | Tick(d: nat)
    | Select(w: WorkerId, u: Uuid, at: int)  // the row is read at s.clock, its start is stamped `at`
    | CommitStart(w: WorkerId)
    | EndTransaction(w: WorkerId, commit: bool)  // issued by the job itself while it executes
    | Report(w: WorkerId, outcome: Outcome)
    | CommitReport(w: WorkerId)
    | Crash(w: WorkerId)

  function Locked(s: State): set<Uuid> {
    set w, u | w in s.workers && u in s.workers[w].pending :: u
  }

  predicate Enabled(s: State, a: Action) {
    match a
    case Tick(_) => true
    case Select(w, u, at) =>
      w in s.workers && s.workers[w].phase.Idle? && s.clock <= at &&
      Selected(s.rows, Locked(s), s.workers[w].component, s.clock, u)
    case CommitStart(w) => w in s.workers && s.workers[w].phase.Claimed?
    case EndTransaction(w, _) => w in s.workers && s.workers[w].phase.Working?
    case Report(w, _) =>
      w in s.workers && s.workers[w].phase.Working? &&
      s.workers[w].phase.uuid in s.rows && s.workers[w].phase.uuid !in Locked(s)
    case CommitReport(w) => w in s.workers && s.workers[w].phase.Reported?
    case Crash(w) => w in s.workers
  }

  function Apply(s: State, a: Action): State
    requires Enabled(s, a)
  {
    match a
    case Tick(d) => s.(clock := s.clock + d)
    case Select(w, u, at) =>
      var c := s.rows[u];
      SetWorker(s, w, Claimed(u, c), map[u := StartUpdate(c, c.attempts + 1, at)])
    case CommitStart(w) =>
      var me := s.workers[w];
      var k := me.phase.command.attempts + 1;
      SetWorker(s, w, Working(me.phase.uuid, me.phase.command, k), map[])
        .(rows := s.rows + me.pending, log := s.log + [Started(me.phase.uuid, k, s.clock)])
    case EndTransaction(w, commit) =>
      var me := s.workers[w];
      SetWorker(s, w, me.phase, map[]).(rows := if commit then s.rows + me.pending else s.rows)
    case Report(w, o) =>
      var p := s.workers[w].phase;
      SetWorker(s, w, Reported(p.uuid, p.command, p.attempt, o),
                map[p.uuid := ReportUpdate(s.rows[p.uuid], p.command.maxAttempts, p.attempt, o, s.clock)])
    case CommitReport(w) =>
      var me := s.workers[w];
      SetWorker(s, w, Idle, map[])
        .(rows := s.rows + me.pending, log := s.log + [Finished(me.phase.uuid, me.phase.attempt, me.phase.outcome)])
    case Crash(w) => SetWorker(s, w, Idle, map[])
  }

  function SetWorker(s: State, w: WorkerId, phase: Phase, pending: Table): State
    requires w in s.workers
  {
    s.(workers := s.workers[w := s.workers[w].(phase := phase, pending := pending)])
  }

  predicate Runs(s: State, acts: seq<Action>)
    decreases |acts|
  {
    acts == [] || (Enabled(s, acts[0]) && Runs(Apply(s, acts[0]), acts[1..]))
  }

  function Exec(s: State, acts: seq<Action>): State
    requires Runs(s, acts)
    decreases |acts|
  {
    if acts == [] then s else Exec(Apply(s, acts[0]), acts[1..])
  }

  lemma {:induction false} RunsConcat(s: State, a: seq<Action>, b: seq<Action>)
    requires Runs(s, a) && Runs(Exec(s, a), b)
    ensures Runs(s, a + b) && Exec(s, a + b) == Exec(Exec(s, a), b)
    decreases |a|
  {
    if a == [] {
      assert a + b == b;
    } else {
      RunsConcat(Apply(s, a[0]), a[1..], b);
      assert (a + b)[0] == a[0] && (a + b)[1..] == a[1..] + b;
    }
  }

  ghost predicate Path(s: State, acts: seq<Action>, t: State) {
    Runs(s, acts) && Exec(s, acts) == t
  }

  lemma PathConcat(s: State, a: seq<Action>, t: State, b: seq<Action>, r: State)
    requires Path(s, a, t) && Path(t, b, r)
    ensures Path(s, a + b, r)
  {
    RunsConcat(s, a, b);
  }

  lemma TwoSteps(s: State, a: Action, b: Action)
    requires Enabled(s, a) && Enabled(Apply(s, a), b)
    ensures Path(s, [a, b], Apply(Apply(s, a), b))
  {
    var s1 := Apply(s, a);
    assert [a, b][1..] == [b] && [b][1..] == [];
    assert Runs(Apply(s1, b), []);
    assert Runs(s1, [b]) && Exec(s1, [b]) == Apply(s1, b);
  }

  predicate Init(s: State) {
    && s.log == []
    && forall w :: w in s.workers ==> s.workers[w].phase == Idle && s.workers[w].pending == map[]
  }

  /******* History *******/

  function Starts(log: seq<Event>, u: Uuid, k: nat): nat {
    if log == [] then 0
    else
      var e := log[|log| - 1];
      Starts(log[..|log| - 1], u, k) + if e.Started? && e.uuid == u && e.attempt == k then 1 else 0
  }

  function Finishes(log: seq<Event>, u: Uuid, k: nat): nat {
    if log == [] then 0
    else
      var e := log[|log| - 1];
      Finishes(log[..|log| - 1], u, k) + if e.Finished? && e.uuid == u && e.attempt == k then 1 else 0
  }

  // How often command u was started.
  function TotalStarts(log: seq<Event>, u: Uuid): nat {
    if log == [] then 0
    else
      var e := log[|log| - 1];
      TotalStarts(log[..|log| - 1], u) + if e.Started? && e.uuid == u then 1 else 0
  }

  lemma Appended(log: seq<Event>, e: Event, u: Uuid, k: nat)
    ensures Starts(log + [e], u, k) == Starts(log, u, k) + if e.Started? && e.uuid == u && e.attempt == k then 1 else 0
    ensures Finishes(log + [e], u, k)
            == Finishes(log, u, k) + if e.Finished? && e.uuid == u && e.attempt == k then 1 else 0
    ensures TotalStarts(log + [e], u) == TotalStarts(log, u) + if e.Started? && e.uuid == u then 1 else 0
  {
    assert (log + [e])[..|log|] == log;
  }

  // The event a step appends, if any.
  function EventOf(s: State, a: Action): Option<Event>
    requires Enabled(s, a)
  {
    match a
    case CommitStart(w) =>
      var p := s.workers[w].phase;
      Some(Started(p.uuid, p.command.attempts + 1, s.clock))
    case CommitReport(w) =>
      var p := s.workers[w].phase;
      Some(Finished(p.uuid, p.attempt, p.outcome))
    case _ => None
  }

  lemma LogStep(s: State, a: Action)
    requires Enabled(s, a)
    ensures Apply(s, a).log == match EventOf(s, a) case None => s.log case Some(e) => s.log + [e]
  {
  }

  predicate IsStart(e: Option<Event>, u: Uuid, k: nat) {
    e.Some? && e.value.Started? && e.value.uuid == u && e.value.attempt == k
  }

  predicate IsFinish(e: Option<Event>, u: Uuid, k: nat) {
    e.Some? && e.value.Finished? && e.value.uuid == u && e.value.attempt == k
  }

  lemma CountsStep(s: State, a: Action, u: Uuid, k: nat)
    requires Enabled(s, a)
    ensures var e := EventOf(s, a);
            && Starts(Apply(s, a).log, u, k) == Starts(s.log, u, k) + (if IsStart(e, u, k) then 1 else 0)
            && Finishes(Apply(s, a).log, u, k) == Finishes(s.log, u, k) + (if IsFinish(e, u, k) then 1 else 0)
            && TotalStarts(Apply(s, a).log, u)
               == TotalStarts(s.log, u) + (if e.Some? && e.value.Started? && e.value.uuid == u then 1 else 0)
  {
    LogStep(s, a);
    var e := EventOf(s, a);
    if e.Some? {
      Appended(s.log, e.value, u, k);
    }
  }

  predicate Executes(p: Phase, u: Uuid, k: nat) {
    (p.Working? || p.Reported?) && p.uuid == u && p.attempt == k
  }

  function Active(workers: map<WorkerId, Worker>, u: Uuid, k: nat): set<WorkerId> {
    set w | w in workers && Executes(workers[w].phase, u, k)
  }

  /******* Invariant of every interleaving *******/

  ghost predicate WorkerOk(s: State, me: Worker) {
    match me.phase
    case Idle => me.pending == map[]
    case Claimed(u, c) =>
      && u in s.rows && s.rows[u] == c && c.component == me.component && Open(c)
      && c.createdAt + Backoff(c.attempts) < s.clock
      && me.pending.Keys == {u}
      && me.pending[u] == StartUpdate(c, c.attempts + 1, me.pending[u].updatedAt)
    case Working(u, c, k) => u in s.rows && k > 0 && s.rows[u].component == me.component && me.pending == map[]
    case Reported(u, c, k, o) =>
      && u in s.rows && k > 0 && s.rows[u].component == me.component
      && me.pending.Keys == {u}
      && me.pending[u] == ReportUpdate(s.rows[u], c.maxAttempts, k, o, me.pending[u].updatedAt)
  }

  ghost predicate LocksExclusive(s: State) {
    forall v, w :: v in s.workers && w in s.workers && v != w ==> s.workers[v].pending.Keys !! s.workers[w].pending.Keys
  }

  ghost predicate SameOrigin(s0: State, s: State, u: Uuid)
    requires u in s0.rows
  {
    && u in s.rows
    && s.rows[u].createdAt == s0.rows[u].createdAt
    && s.rows[u].component == s0.rows[u].component
    && s.rows[u].maxAttempts <= s0.rows[u].maxAttempts
  }

  // Every start of k+1 consumes one write of k; every finish of k belongs to a start of k.
  ghost predicate LedgerAt(s0: State, s: State, u: Uuid, k: nat)
    requires u in s0.rows && u in s.rows
  {
    && Starts(s.log, u, k + 1) + (if s.rows[u].attempts == k then 1 else 0)
       <= Starts(s.log, u, k) + Finishes(s.log, u, k) + (if s0.rows[u].attempts == k then 1 else 0)
    && Finishes(s.log, u, k) + |Active(s.workers, u, k)| <= Starts(s.log, u, k)
    && (Starts(s.log, u, k) > 0 ==> 0 < k <= s0.rows[u].maxAttempts)
  }

  ghost predicate Ledger(s0: State, s: State, u: Uuid)
    requires u in s0.rows && u in s.rows
  {
    forall k: nat :: LedgerAt(s0, s, u, k)
  }

  ghost predicate OnTime(s: State) {
    forall i :: 0 <= i < |s.log| && s.log[i].Started? ==>
      && s.log[i].uuid in s.rows && s.log[i].attempt > 0 && s.log[i].at <= s.clock
      && s.rows[s.log[i].uuid].createdAt + Backoff(s.log[i].attempt - 1) < s.log[i].at
  }

  ghost predicate Shape(s: State) {
    LocksExclusive(s) && forall w :: w in s.workers ==> WorkerOk(s, s.workers[w])
  }

  ghost predicate SameStaff(s0: State, s: State) {
    && s.workers.Keys == s0.workers.Keys
    && forall w :: w in s.workers ==> s.workers[w].component == s0.workers[w].component
  }

  ghost predicate Accounts(s0: State, s: State) {
    && s.rows.Keys == s0.rows.Keys
    && forall u :: u in s0.rows ==> SameOrigin(s0, s, u) && Ledger(s0, s, u)
  }

  ghost predicate Inv(s0: State, s: State) {
    SameStaff(s0, s) && Shape(s) && OnTime(s) && Accounts(s0, s)
  }

  lemma InitInv(s: State)
    requires Init(s)
    ensures Inv(s, s)
  {
    forall u, k: nat ensures Active(s.workers, u, k) == {} {
    }
  }

  // A step moves at most the acting worker.
  lemma WorkersMove(s: State, a: Action)
    requires Enabled(s, a)
    ensures var t := Apply(s, a);
            if a.Tick? then t.workers == s.workers
            else a.w in s.workers && a.w in t.workers && t.workers == s.workers[a.w := t.workers[a.w]]
                 && t.workers[a.w].component == s.workers[a.w].component
    ensures Apply(s, a).clock >= s.clock
    ensures !a.CommitStart? && !a.CommitReport? ==> Apply(s, a).log == s.log
  {
  }

  // The only step that changes the table is the commit of one pending row.
  lemma RowsStep(s: State, a: Action)
    requires Shape(s) && Enabled(s, a)
    ensures var t := Apply(s, a);
            if a.CommitStart? || a.CommitReport? then
              var u := s.workers[a.w].phase.uuid;
              u in s.rows && u in s.workers[a.w].pending && t.rows == s.rows[u := s.workers[a.w].pending[u]]
            else t.rows == s.rows
  {
    if a.CommitStart? || a.CommitReport? || a.EndTransaction? {
      assert WorkerOk(s, s.workers[a.w]);
    }
  }

  lemma ActingStep(s: State, a: Action)
    requires Shape(s) && Enabled(s, a) && !a.Tick?
    ensures WorkerOk(Apply(s, a), Apply(s, a).workers[a.w])
  {
    RowsStep(s, a);
    assert WorkerOk(s, s.workers[a.w]);
  }

  lemma BystanderStep(s: State, a: Action, v: WorkerId)
    requires Shape(s) && Enabled(s, a) && v in s.workers && (a.Tick? || v != a.w)
    ensures v in Apply(s, a).workers && WorkerOk(Apply(s, a), Apply(s, a).workers[v])
  {
    WorkersMove(s, a);
    RowsStep(s, a);
    assert WorkerOk(s, s.workers[v]);
    if a.CommitStart? || a.CommitReport? {
      assert WorkerOk(s, s.workers[a.w]);
      assert s.workers[v].pending.Keys !! s.workers[a.w].pending.Keys;
      assert s.workers[a.w].phase.uuid !in s.workers[v].pending;
    }
  }

  lemma LocksStep(s: State, a: Action)
    requires LocksExclusive(s) && Enabled(s, a)
    ensures LocksExclusive(Apply(s, a))
  {
    var t := Apply(s, a);
    forall v, w | v in t.workers && w in t.workers && v != w
      ensures t.workers[v].pending.Keys !! t.workers[w].pending.Keys
    {
      assert s.workers[v].pending.Keys !! s.workers[w].pending.Keys;
      if a.Select? || a.Report? {
        var u := if a.Select? then a.u else s.workers[a.w].phase.uuid;
        assert u !in Locked(s);
        assert u !in s.workers[v].pending && u !in s.workers[w].pending;
      }
    }
  }

  lemma ActiveUpdate(workers: map<WorkerId, Worker>, w: WorkerId, me: Worker, u: Uuid, k: nat)
    requires w in workers
    ensures Active(workers[w := me], u, k) ==
            if Executes(me.phase, u, k) then Active(workers, u, k) + {w} else Active(workers, u, k) - {w}
  {
  }

  lemma ActiveStep(s: State, a: Action, u: Uuid, k: nat)
    requires Enabled(s, a)
    ensures var t := Apply(s, a);
            |Active(t.workers, u, k)|
            <= |Active(s.workers, u, k)| + if a.CommitStart? && Executes(t.workers[a.w].phase, u, k) then 1 else 0
    ensures a.CommitReport? && Executes(s.workers[a.w].phase, u, k) ==>
              |Active(Apply(s, a).workers, u, k)| == |Active(s.workers, u, k)| - 1
  {
    WorkersMove(s, a);
    if !a.Tick? {
      var t := Apply(s, a);
      ActiveUpdate(s.workers, a.w, t.workers[a.w], u, k);
    }
  }

  lemma OriginStep(s0: State, s: State, a: Action, u: Uuid)
    requires Shape(s) && Enabled(s, a)
    requires u in s0.rows && SameOrigin(s0, s, u) && Ledger(s0, s, u)
    ensures SameOrigin(s0, Apply(s, a), u)
  {
    RowsStep(s, a);
    if a.CommitStart? || a.CommitReport? {
      var me := s.workers[a.w];
      assert WorkerOk(s, me);
      if a.CommitReport? && me.phase.uuid == u {
        assert LedgerAt(s0, s, u, me.phase.attempt);
        assert a.w in Active(s.workers, u, me.phase.attempt);
      }
    }
  }

  // The attempts of a row after a step that appends an event of it are those the event tells.
  lemma AttemptsStep(s: State, a: Action, u: Uuid)
    requires Shape(s) && Enabled(s, a) && u in s.rows
    ensures var e, t := EventOf(s, a), Apply(s, a);
            && u in t.rows
            && t.rows[u].attempts == (if e.Some? && e.value.uuid == u then e.value.attempt else s.rows[u].attempts)
            && (e.Some? && e.value.Started? && e.value.uuid == u ==>
                  s.rows[u].attempts + 1 == e.value.attempt <= s.rows[u].maxAttempts)
  {
    RowsStep(s, a);
    if a.CommitStart? || a.CommitReport? {
      assert WorkerOk(s, s.workers[a.w]);
    }
  }

  lemma ActiveEvents(s: State, a: Action, u: Uuid, k: nat)
    requires Enabled(s, a)
    ensures var e := EventOf(s, a);
            |Active(Apply(s, a).workers, u, k)|
            <= |Active(s.workers, u, k)| + (if IsStart(e, u, k) then 1 else 0) - (if IsFinish(e, u, k) then 1 else 0)
  {
    ActiveStep(s, a, u, k);
  }

  lemma LedgerAtStep(s0: State, s: State, a: Action, u: Uuid, k: nat)
    requires Shape(s) && Enabled(s, a) && u in Apply(s, a).rows
    requires u in s0.rows && SameOrigin(s0, s, u) && LedgerAt(s0, s, u, k)
    ensures LedgerAt(s0, Apply(s, a), u, k)
  {
    AttemptsStep(s, a, u);
    ActiveEvents(s, a, u, k);
    CountsStep(s, a, u, k);
    CountsStep(s, a, u, k + 1);
  }

  lemma LedgerStep(s0: State, s: State, a: Action, u: Uuid)
    requires Shape(s) && Enabled(s, a)
    requires u in s0.rows && SameOrigin(s0, s, u) && Ledger(s0, s, u)
    ensures SameOrigin(s0, Apply(s, a), u) && Ledger(s0, Apply(s, a), u)
  {
    OriginStep(s0, s, a, u);
    forall k: nat ensures LedgerAt(s0, Apply(s, a), u, k) {
      LedgerAtStep(s0, s, a, u, k);
    }
  }

  lemma OnTimeStep(s: State, a: Action)
    requires Shape(s) && OnTime(s) && Enabled(s, a)
    ensures OnTime(Apply(s, a))
  {
    WorkersMove(s, a);
    RowsStep(s, a);
    if a.CommitStart? || a.CommitReport? {
      assert WorkerOk(s, s.workers[a.w]);
    }
  }

  lemma ShapeStep(s: State, a: Action)
    requires Shape(s) && Enabled(s, a)
    ensures Shape(Apply(s, a))
  {
    LocksStep(s, a);
    WorkersMove(s, a);
    forall v | v in s.workers ensures WorkerOk(Apply(s, a), Apply(s, a).workers[v]) {
      if a.Tick? || v != a.w {
        BystanderStep(s, a, v);
      } else {
        ActingStep(s, a);
      }
    }
  }

  lemma AccountsStep(s0: State, s: State, a: Action)
    requires Shape(s) && Accounts(s0, s) && Enabled(s, a)
    ensures Accounts(s0, Apply(s, a))
  {
    WorkersMove(s, a);
    RowsStep(s, a);
    forall u | u in s0.rows ensures SameOrigin(s0, Apply(s, a), u) && Ledger(s0, Apply(s, a), u) {
      LedgerStep(s0, s, a, u);
    }
  }

  lemma StepInv(s0: State, s: State, a: Action)
    requires Inv(s0, s) && Enabled(s, a)
    ensures Inv(s0, Apply(s, a))
  {
    ShapeStep(s, a);
    OnTimeStep(s, a);
    AccountsStep(s0, s, a);
    StaffStep(s0, s, a);
  }

  lemma StaffStep(s0: State, s: State, a: Action)
    requires SameStaff(s0, s) && Enabled(s, a)
    ensures SameStaff(s0, Apply(s, a))
  {
    WorkersMove(s, a);
  }

  lemma {:induction false} RunInv(s0: State, s: State, acts: seq<Action>)
    requires Inv(s0, s) && Runs(s, acts)
    ensures Inv(s0, Exec(s, acts))
    decreases |acts|
  {
    if acts != [] {
      StepInv(s0, s, acts[0]);
      RunInv(s0, Apply(s, acts[0]), acts[1..]);
    }
  }

  /******* Executions are bounded *******/

  function SumStarts(log: seq<Event>, u: Uuid, lo: nat, hi: nat): nat
    requires lo <= hi
    decreases hi
  {
    if lo == hi then 0 else SumStarts(log, u, lo, hi - 1) + Starts(log, u, hi)
  }

  lemma {:induction false} SumAppended(log: seq<Event>, e: Event, u: Uuid, lo: nat, hi: nat)
    requires lo <= hi
    ensures SumStarts(log + [e], u, lo, hi) ==
            SumStarts(log, u, lo, hi) + if e.Started? && e.uuid == u && lo < e.attempt <= hi then 1 else 0
    decreases hi
  {
    Appended(log, e, u, hi);
    if lo < hi {
      SumAppended(log, e, u, lo, hi - 1);
    }
  }

  lemma {:induction false} SumIsTotal(log: seq<Event>, u: Uuid, lo: nat, hi: nat)
    requires lo <= hi
    requires forall i :: 0 <= i < |log| && log[i].Started? && log[i].uuid == u ==> lo < log[i].attempt <= hi
    ensures TotalStarts(log, u) == SumStarts(log, u, lo, hi)
  {
    if log == [] {
      EmptySum(u, lo, hi);
    } else {
      var init, e := log[..|log| - 1], log[|log| - 1];
      assert log == init + [e];
      SumIsTotal(init, u, lo, hi);
      SumAppended(init, e, u, lo, hi);
      Appended(init, e, u, 0);
    }
  }

  lemma {:induction false} EmptySum(u: Uuid, lo: nat, hi: nat)
    requires lo <= hi
    ensures SumStarts([], u, lo, hi) == 0
    decreases hi
  {
    if lo < hi {
      EmptySum(u, lo, hi - 1);
    }
  }

  lemma {:induction false} CountedStart(log: seq<Event>, i: nat)
    requires i < |log| && log[i].Started?
    ensures Starts(log, log[i].uuid, log[i].attempt) > 0
  {
    if i < |log| - 1 {
      CountedStart(log[..|log| - 1], i);
    }
  }

  // Attempt a0+j is started at most 2^(j-1) times, and no attempt up to a0 ever is.
  lemma {:induction false} StartsOfAttempt(s0: State, s: State, u: Uuid, k: nat)
    requires Inv(s0, s) && u in s0.rows
    ensures var a0 := s0.rows[u].attempts;
            Starts(s.log, u, k) <= if k <= a0 then 0 else Pow2(k - a0 - 1)
  {
    assert LedgerAt(s0, s, u, k);
    if k > 0 {
      StartsOfAttempt(s0, s, u, k - 1);
      assert LedgerAt(s0, s, u, k - 1);
    }
  }

  lemma {:induction false} SumBounded(s0: State, s: State, u: Uuid, hi: nat)
    requires Inv(s0, s) && u in s0.rows && s0.rows[u].attempts <= hi
    ensures SumStarts(s.log, u, s0.rows[u].attempts, hi) <= Pow2(hi - s0.rows[u].attempts) - 1
    decreases hi
  {
    if s0.rows[u].attempts < hi {
      SumBounded(s0, s, u, hi - 1);
      StartsOfAttempt(s0, s, u, hi);
    }
  }

  // If no start so far has an attempt number above `hi`, there are fewer than 2^(hi-a0) of them.
  lemma StartsUpTo(s0: State, s: State, u: Uuid, hi: nat)
    requires Inv(s0, s) && u in s0.rows && s0.rows[u].attempts <= hi
    requires forall i :: 0 <= i < |s.log| && s.log[i].Started? && s.log[i].uuid == u ==> s.log[i].attempt <= hi
    ensures TotalStarts(s.log, u) <= Pow2(hi - s0.rows[u].attempts) - 1
  {
    var a0 := s0.rows[u].attempts;
    forall i | 0 <= i < |s.log| && s.log[i].Started? && s.log[i].uuid == u ensures a0 < s.log[i].attempt <= hi {
      CountedStart(s.log, i);
      StartsOfAttempt(s0, s, u, s.log[i].attempt);
    }
    SumIsTotal(s.log, u, a0, hi);
    SumBounded(s0, s, u, hi);
  }

  // Whatever the workers, the interleaving and the crashes.
  lemma ExecutionBound(s0: State, acts: seq<Action>, u: Uuid)
    requires Init(s0) && Runs(s0, acts) && u in s0.rows
    ensures var (a0, max) := (s0.rows[u].attempts, s0.rows[u].maxAttempts);
            TotalStarts(Exec(s0, acts).log, u) <= if a0 <= max then Pow2(max - a0) - 1 else 0
  {
    InitInv(s0);
    RunInv(s0, s0, acts);
    BoundFromInv(s0, Exec(s0, acts), u);
  }

  lemma BoundFromInv(s0: State, s: State, u: Uuid)
    requires Inv(s0, s) && u in s0.rows
    ensures var (a0, max) := (s0.rows[u].attempts, s0.rows[u].maxAttempts);
            TotalStarts(s.log, u) <= if a0 <= max then Pow2(max - a0) - 1 else 0
  {
    var a0, max := s0.rows[u].attempts, s0.rows[u].maxAttempts;
    var hi := if a0 <= max then max else a0;
    forall i | 0 <= i < |s.log| && s.log[i].Started? && s.log[i].uuid == u ensures s.log[i].attempt <= hi {
      CountedStart(s.log, i);
      assert LedgerAt(s0, s, u, s.log[i].attempt);
    }
    StartsUpTo(s0, s, u, hi);
  }

  /******* Backoff *******/

  lemma StartsAfterBackoff(s0: State, acts: seq<Action>, i: nat)
    requires Init(s0) && Runs(s0, acts)
    requires i < |Exec(s0, acts).log| && Exec(s0, acts).log[i].Started?
    ensures var e := Exec(s0, acts).log[i];
            && e.uuid in s0.rows && e.attempt > 0
            && e.at > s0.rows[e.uuid].createdAt + (Pow2(e.attempt - 1) - 1) * 60_000_000
  {
    InitInv(s0);
    RunInv(s0, s0, acts);
    var s := Exec(s0, acts);
    assert OnTime(s);
    assert SameOrigin(s0, s, s.log[i].uuid);
  }

  // The smallest attempt number whose successor is still held back after d microseconds.
  lemma {:induction false} BackoffLevel(d: int, from: nat) returns (k: nat)
    requires d > Backoff(from)
    ensures k > from && Backoff(k - 1) < d <= Backoff(k)
    decreases d - Backoff(from)
  {
    if d <= Backoff(from + 1) {
      k := from + 1;
    } else {
      k := BackoffLevel(d, from + 1);
    }
  }

  lemma {:induction false} BackoffMonotone(j: nat, k: nat)
    requires j <= k
    ensures Backoff(j) <= Backoff(k)
  {
    Pow2Monotone(j, k);
  }

  // t minutes after its creation a fresh command was started fewer than 2t + 1 times.
  lemma StartRate(s0: State, acts: seq<Action>, u: Uuid)
    requires Init(s0) && Runs(s0, acts) && u in s0.rows && s0.rows[u].attempts == 0
    requires TotalStarts(Exec(s0, acts).log, u) > 0
    ensures var s := Exec(s0, acts);
            (TotalStarts(s.log, u) - 1) * 60_000_000 < 2 * (s.clock - s0.rows[u].createdAt)
  {
    InitInv(s0);
    RunInv(s0, s0, acts);
    var s := Exec(s0, acts);
    var d := s.clock - s0.rows[u].createdAt;
    if d <= 0 {
      AttemptsInTime(s0, s, u, 0);
      StartsUpTo(s0, s, u, 0);
    } else {
      var k := BackoffLevel(d, 0);
      AttemptsInTime(s0, s, u, k);
      StartsUpTo(s0, s, u, k);
      assert Pow2(k) == 2 * Pow2(k - 1);
    }
  }

  // Attempts whose backoff has not yet passed were not started.
  lemma AttemptsInTime(s0: State, s: State, u: Uuid, k: nat)
    requires Inv(s0, s) && u in s0.rows && s.clock - s0.rows[u].createdAt <= Backoff(k)
    ensures forall i :: 0 <= i < |s.log| && s.log[i].Started? && s.log[i].uuid == u ==> s.log[i].attempt <= k
  {
    assert OnTime(s) && SameOrigin(s0, s, u);
    forall i | 0 <= i < |s.log| && s.log[i].Started? && s.log[i].uuid == u ensures s.log[i].attempt <= k {
      if s.log[i].attempt > k {
        BackoffMonotone(k, s.log[i].attempt - 1);
      }
    }
  }

  /******* One worker per component *******/

  // w is the only worker that ever selects command u.
  predicate SoleWorker(s: State, u: Uuid, w: WorkerId) {
    && u in s.rows && w in s.workers
    && s.workers[w].component == s.rows[u].component
    && forall v :: v in s.workers && v != w ==> s.workers[v].component != s.rows[u].component
  }

  // The number of starts is read off the committed row, and each attempt ran exactly once.
  ghost predicate Solo(s0: State, s: State, u: Uuid, w: WorkerId) {
    && u in s0.rows && u in s.rows && w in s.workers
    && s0.rows[u].attempts <= s.rows[u].attempts
    && (s0.rows[u].attempts <= s0.rows[u].maxAttempts ==> s.rows[u].attempts <= s.rows[u].maxAttempts)
    && TotalStarts(s.log, u) == s.rows[u].attempts - s0.rows[u].attempts
    && (forall k: nat :: SoloAt(s0, s, u, k))
    && Executing(s.workers[w].phase, s.rows[u], u)
  }

  ghost predicate SoloAt(s0: State, s: State, u: Uuid, k: nat)
    requires u in s0.rows && u in s.rows
  {
    Starts(s.log, u, k) == if s0.rows[u].attempts < k <= s.rows[u].attempts then 1 else 0
  }

  // While the job runs, the committed row is still the one its start wrote.
  ghost predicate Executing(p: Phase, c: Command, u: Uuid) {
    (p.Working? || p.Reported?) && p.uuid == u ==>
      && c == StartUpdate(p.command, p.attempt, c.updatedAt)
      && p.attempt == p.command.attempts + 1
      && Open(p.command)
  }

  lemma SoloInit(s: State, u: Uuid, w: WorkerId)
    requires Init(s) && SoleWorker(s, u, w)
    ensures Shape(s) && Solo(s, s, u, w)
  {
  }

  lemma OnlySoleTouches(s: State, u: Uuid, w: WorkerId, v: WorkerId)
    requires Shape(s) && SoleWorker(s, u, w) && v in s.workers
    requires !s.workers[v].phase.Idle? && s.workers[v].phase.uuid == u
    ensures v == w
  {
    assert WorkerOk(s, s.workers[v]);
  }

  lemma SoleWorkerStep(s: State, a: Action, u: Uuid, w: WorkerId)
    requires Shape(s) && SoleWorker(s, u, w) && Enabled(s, a)
    ensures SoleWorker(Apply(s, a), u, w)
  {
    WorkersMove(s, a);
    RowsStep(s, a);
    if a.CommitStart? || a.CommitReport? {
      assert WorkerOk(s, s.workers[a.w]);
    }
  }

  // A step that leaves the attempts alone or starts the next one keeps the count of each attempt.
  lemma SoloAtStep(s0: State, s: State, a: Action, u: Uuid, k: nat)
    requires Shape(s) && Enabled(s, a) && u in s0.rows && u in s.rows && u in Apply(s, a).rows
    requires s0.rows[u].attempts <= s.rows[u].attempts && SoloAt(s0, s, u, k)
    requires EventOf(s, a).Some? && EventOf(s, a).value.Finished? && EventOf(s, a).value.uuid == u ==>
               EventOf(s, a).value.attempt == s.rows[u].attempts
    ensures SoloAt(s0, Apply(s, a), u, k)
  {
    AttemptsStep(s, a, u);
    CountsStep(s, a, u, k);
  }

  // The event of the sole worker's commit is the start after, or the finish of, the committed attempt.
  lemma SoloEvent(s0: State, s: State, a: Action, u: Uuid, w: WorkerId)
    requires Shape(s) && SoleWorker(s, u, w) && Solo(s0, s, u, w) && Enabled(s, a)
    ensures EventOf(s, a).Some? && EventOf(s, a).value.Finished? && EventOf(s, a).value.uuid == u ==>
              EventOf(s, a).value.attempt == s.rows[u].attempts
  {
    if a.CommitReport? && s.workers[a.w].phase.uuid == u {
      OnlySoleTouches(s, u, w, a.w);
    }
  }

  lemma ExecutingStep(s: State, a: Action, u: Uuid, w: WorkerId)
    requires Shape(s) && SoleWorker(s, u, w) && Enabled(s, a)
    requires Executing(s.workers[w].phase, s.rows[u], u)
    ensures u in Apply(s, a).rows && w in Apply(s, a).workers
    ensures Executing(Apply(s, a).workers[w].phase, Apply(s, a).rows[u], u)
  {
    WorkersMove(s, a);
    RowsStep(s, a);
    if a.CommitStart? || a.CommitReport? {
      assert WorkerOk(s, s.workers[a.w]);
      if s.workers[a.w].phase.uuid == u {
        OnlySoleTouches(s, u, w, a.w);
      }
    }
  }

  lemma SoloLimit(s0: State, s: State, a: Action, u: Uuid, w: WorkerId)
    requires Shape(s) && SoleWorker(s, u, w) && Solo(s0, s, u, w) && Enabled(s, a)
    ensures u in Apply(s, a).rows
    ensures s0.rows[u].attempts <= s0.rows[u].maxAttempts ==>
            Apply(s, a).rows[u].attempts <= Apply(s, a).rows[u].maxAttempts
  {
    RowsStep(s, a);
    if a.CommitStart? || a.CommitReport? {
      assert WorkerOk(s, s.workers[a.w]);
      if s.workers[a.w].phase.uuid == u {
        OnlySoleTouches(s, u, w, a.w);
      }
    }
  }

  lemma SoloStep(s0: State, s: State, a: Action, u: Uuid, w: WorkerId)
    requires Shape(s) && SoleWorker(s, u, w) && Solo(s0, s, u, w) && Enabled(s, a)
    ensures Solo(s0, Apply(s, a), u, w)
    ensures Apply(s, a).rows[u].attempts >= s.rows[u].attempts
  {
    SoloEvent(s0, s, a, u, w);
    ExecutingStep(s, a, u, w);
    SoloLimit(s0, s, a, u, w);
    AttemptsStep(s, a, u);
    CountsStep(s, a, u, 0);
    forall k: nat ensures SoloAt(s0, Apply(s, a), u, k) {
      assert SoloAt(s0, s, u, k);
      SoloAtStep(s0, s, a, u, k);
    }
  }

  lemma {:induction false} SoloRun(s0: State, s: State, acts: seq<Action>, u: Uuid, w: WorkerId)
    requires Shape(s) && SoleWorker(s, u, w) && Solo(s0, s, u, w) && Runs(s, acts)
    ensures var t := Exec(s, acts);
            Shape(t) && SoleWorker(t, u, w) && Solo(s0, t, u, w) && t.rows[u].attempts >= s.rows[u].attempts
    decreases |acts|
  {
    if acts != [] {
      ShapeStep(s, acts[0]);
      SoleWorkerStep(s, acts[0], u, w);
      SoloStep(s0, s, acts[0], u, w);
      SoloRun(s0, Apply(s, acts[0]), acts[1..], u, w);
    }
  }

  // Committed attempts never decrease, every attempt number runs at most once, and the job runs at
  // most max - a0 times, whatever crashes and transaction ends the worker issues.
  lemma SoleWorkerAttempts(s0: State, acts: seq<Action>, more: seq<Action>, u: Uuid, w: WorkerId)
    requires Init(s0) && SoleWorker(s0, u, w) && Runs(s0, acts) && Runs(Exec(s0, acts), more)
    ensures var s, t := Exec(s0, acts), Exec(Exec(s0, acts), more);
            && u in s.rows && u in t.rows && s.rows[u].attempts <= t.rows[u].attempts
            && TotalStarts(t.log, u) == t.rows[u].attempts - s0.rows[u].attempts
            && (forall k: nat :: Starts(t.log, u, k) <= 1)
            && (s0.rows[u].attempts <= s0.rows[u].maxAttempts ==>
                  TotalStarts(t.log, u) <= s0.rows[u].maxAttempts - s0.rows[u].attempts)
  {
    SoloInit(s0, u, w);
    SoloRun(s0, s0, acts, u, w);
    SoloRun(s0, Exec(s0, acts), more, u, w);
    var t := Exec(Exec(s0, acts), more);
    forall k: nat ensures Starts(t.log, u, k) <= 1 {
      assert SoloAt(s0, t, u, k);
    }
    InitInv(s0);
    RunInv(s0, s0, acts);
    RunInv(s0, Exec(s0, acts), more);
    assert SameOrigin(s0, t, u);
  }

  // No further attempt is possible and none is under way.
  predicate Settled(s: State, u: Uuid) {
    && u in s.rows && !Open(s.rows[u])
    && forall v :: v in s.workers && (s.workers[v].phase.Working? || s.workers[v].phase.Reported?) ==>
         s.workers[v].phase.uuid != u
  }

  lemma SettledStep(s: State, a: Action, u: Uuid)
    requires Shape(s) && Settled(s, u) && Enabled(s, a)
    ensures var t := Apply(s, a);
            Settled(t, u) && t.rows[u] == s.rows[u] && TotalStarts(t.log, u) == TotalStarts(s.log, u)
  {
    WorkersMove(s, a);
    RowsStep(s, a);
    if a.CommitStart? || a.CommitReport? {
      assert WorkerOk(s, s.workers[a.w]);
      Appended(s.log, Apply(s, a).log[|s.log|], u, 0);
    }
  }

  lemma {:induction false} SettledForever(s: State, acts: seq<Action>, u: Uuid)
    requires Shape(s) && Settled(s, u) && Runs(s, acts)
    ensures var t := Exec(s, acts);
            Settled(t, u) && t.rows[u] == s.rows[u] && TotalStarts(t.log, u) == TotalStarts(s.log, u)
    decreases |acts|
  {
    if acts != [] {
      ShapeStep(s, acts[0]);
      SettledStep(s, acts[0], u);
      SettledForever(Apply(s, acts[0]), acts[1..], u);
    }
  }

  lemma SoleSettles(s: State, u: Uuid, w: WorkerId)
    requires Shape(s) && SoleWorker(s, u, w) && !Open(s.rows[u])
    requires (s.workers[w].phase.Working? || s.workers[w].phase.Reported?) ==> s.workers[w].phase.uuid != u
    ensures Settled(s, u)
  {
    forall v | v in s.workers && (s.workers[v].phase.Working? || s.workers[v].phase.Reported?)
      ensures s.workers[v].phase.uuid != u
    {
      if s.workers[v].phase.uuid == u {
        OnlySoleTouches(s, u, w, v);
      }
    }
  }

  // With a sole worker a committed Done is final: the row never changes and the job never runs again.
  lemma DoneIsFinal(s0: State, acts: seq<Action>, more: seq<Action>, u: Uuid, w: WorkerId)
    requires Init(s0) && SoleWorker(s0, u, w) && Runs(s0, acts) && Runs(Exec(s0, acts), more)
    requires u in Exec(s0, acts).rows && Exec(s0, acts).rows[u].state == DoneCommand
    ensures var s, t := Exec(s0, acts), Exec(Exec(s0, acts), more);
            u in t.rows && t.rows[u] == s.rows[u] && TotalStarts(t.log, u) == TotalStarts(s.log, u)
  {
    SoloInit(s0, u, w);
    SoloRun(s0, s0, acts, u, w);
    SoleSettles(Exec(s0, acts), u, w);
    SettledForever(Exec(s0, acts), more, u);
  }

  // A report closes its row exactly if the job succeeded, must not be tried again, or used the last attempt.
  lemma ClosingReport(c: Command, limit: nat, attempt: nat, outcome: Outcome, at: int)
    ensures Open(ReportUpdate(c, limit, attempt, outcome, at)) <==>
            && !outcome.Succeeded?
            && (outcome.JobFailed? ==> outcome.tryAgain && attempt < limit)
            && attempt < c.maxAttempts
  {
  }

  // The report that w is about to commit for u leaves the row closed.
  predicate Closing(s: State, u: Uuid, w: WorkerId) {
    && w in s.workers && s.workers[w].phase.Reported? && s.workers[w].phase.uuid == u
    && u in s.workers[w].pending && !Open(s.workers[w].pending[u])
  }

  // Whatever the reason for which a report closes the row: its commit is final.
  lemma StopIsFinal(s0: State, acts: seq<Action>, more: seq<Action>, u: Uuid, w: WorkerId)
    requires Init(s0) && SoleWorker(s0, u, w) && Runs(s0, acts)
    requires Closing(Exec(s0, acts), u, w)
    requires Runs(Apply(Exec(s0, acts), CommitReport(w)), more)
    ensures var s := Apply(Exec(s0, acts), CommitReport(w));
            var t := Exec(s, more);
            u in s.rows && u in t.rows && t.rows[u] == s.rows[u] && TotalStarts(t.log, u) == TotalStarts(s.log, u)
  {
    SoloInit(s0, u, w);
    SoloRun(s0, s0, acts, u, w);
    ClosingSettles(Exec(s0, acts), u, w);
    SettledForever(Apply(Exec(s0, acts), CommitReport(w)), more, u);
  }

  lemma ClosingSettles(s: State, u: Uuid, w: WorkerId)
    requires Shape(s) && SoleWorker(s, u, w) && Closing(s, u, w)
    ensures var t := Apply(s, CommitReport(w)); Shape(t) && Settled(t, u)
  {
    var a := CommitReport(w);
    RowsStep(s, a);
    ShapeStep(s, a);
    SoleWorkerStep(s, a, u, w);
    SoleSettles(Apply(s, a), u, w);
  }

  // From attempts 0, t minutes after its creation, a sole worker has made at most as many starts as
  // the largest k with 2^(k-1) - 1 < t.
  lemma SoleStartRate(s0: State, acts: seq<Action>, u: Uuid, w: WorkerId)
    requires Init(s0) && SoleWorker(s0, u, w) && Runs(s0, acts) && s0.rows[u].attempts == 0
    ensures var s := Exec(s0, acts);
            TotalStarts(s.log, u) > 0 ==>
              (Pow2(TotalStarts(s.log, u) - 1) - 1) * 60_000_000 < s.clock - s0.rows[u].createdAt
  {
    SoloInit(s0, u, w);
    SoloRun(s0, s0, acts, u, w);
    InitInv(s0);
    RunInv(s0, s0, acts);
    var s := Exec(s0, acts);
    var n := TotalStarts(s.log, u);
    if n > 0 {
      assert SoloAt(s0, s, u, n);
      var i := FindStart(s.log, u, n);
      assert OnTime(s) && SameOrigin(s0, s, u);
    }
  }

  lemma {:induction false} FindStart(log: seq<Event>, u: Uuid, k: nat) returns (i: nat)
    requires Starts(log, u, k) > 0
    ensures i < |log| && log[i].Started? && log[i].uuid == u && log[i].attempt == k
  {
    i := |log| - 1;
    if !(log[i].Started? && log[i].uuid == u && log[i].attempt == k) {
      i := FindStart(log[..|log| - 1], u, k);
    }
  }
}
