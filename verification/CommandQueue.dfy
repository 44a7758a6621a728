/** The queue of one component served by one worker: each pass picks, starts, executes and reports one
    command, and the drain repeats passes until nothing is selected. */
module CommandQueue {
  import opened Common
  import opened CommandQueries
  import opened CommandProtocol

  // One pass: the row picked at `now` with so many `attempts`, the time stamps it wrote, its outcome.
  datatype Pass = Pass(uuid: Uuid, now: int, attempts: nat, startedAt: int, finishedAt: int, outcome: Outcome)

  predicate PassAllowed(rows: Table, component: string, p: Pass) {
    && Selected(rows, {}, component, p.now, p.uuid)
    && p.attempts == rows[p.uuid].attempts
    && p.now <= p.startedAt <= p.finishedAt
  }

  function PassRows(rows: Table, p: Pass): Table
    requires p.uuid in rows
  {
    var c := rows[p.uuid];
    var k := c.attempts + 1;
    rows[p.uuid := ReportUpdate(StartUpdate(c, k, p.startedAt), c.maxAttempts, k, p.outcome, p.finishedAt)]
  }

  // One pass in the columns of the rows: which row it took, and what it left of it.
  ghost predicate PassDone(before: Table, after: Table, component: string, p: Pass) {
    && p.uuid in before && after.Keys == before.Keys
    && Due(before[p.uuid], component, p.now)
    && (forall v :: v in before && Due(before[v], component, p.now) ==>
          || before[p.uuid].attempts < before[v].attempts
          || (before[p.uuid].attempts == before[v].attempts && before[v].updatedAt <= before[p.uuid].updatedAt))
    && (forall v :: v in before && v != p.uuid ==> after[v] == before[v])
    && var c, d := before[p.uuid], after[p.uuid];
       && d.component == c.component && d.createdAt == c.createdAt
       && d.attempts == c.attempts + 1 && d.updatedAt == p.finishedAt
       && d.state == (if p.outcome == Succeeded then DoneCommand else ErrorCommand)
       && d.maxAttempts
          == if p.outcome == JobFailed(false) || (p.outcome == JobFailed(true) && d.attempts >= c.maxAttempts)
             then d.attempts else c.maxAttempts
  }

  lemma PassMeans(rows: Table, component: string, p: Pass)
    requires PassAllowed(rows, component, p)
    ensures PassDone(rows, PassRows(rows, p), component, p)
  {
    var c, k := rows[p.uuid], rows[p.uuid].attempts + 1;
    SelectedMeans(rows, {}, component, p.now, p.uuid);
    StartMeans(c, k, p.startedAt);
    ReportMeans(StartUpdate(c, k, p.startedAt), c.maxAttempts, k, p.outcome, p.finishedAt);
  }

  ghost predicate Drained(rows: Table, component: string, now: int) {
    forall u :: u in rows ==> !Due(rows[u], component, now)
  }

  // Passes that read the same clock value pick commands in order of their attempts.
  ghost predicate Ordered(passes: seq<Pass>) {
    forall i, j :: 0 <= i < j < |passes| && passes[i].now == passes[j].now ==> passes[i].attempts <= passes[j].attempts
  }

  // What is left to be picked at an earlier clock value has at least as many attempts as was picked then.
  ghost predicate Ahead(passes: seq<Pass>, rows: Table, component: string) {
    forall i, u :: 0 <= i < |passes| && u in rows && Eligible(rows[u], component, passes[i].now) ==>
      passes[i].attempts <= rows[u].attempts
  }

  /******* Termination measure *******/

  function Left(c: Command): nat {
    if c.attempts < c.maxAttempts then c.maxAttempts - c.attempts else 0
  }

  ghost function Budget(rows: Table): nat {
    if rows == map[] then 0 else var u :| u in rows; Left(rows[u]) + Budget(rows - {u})
  }

  lemma {:induction false} BudgetSplit(rows: Table, u: Uuid)
    requires u in rows
    ensures Budget(rows) == Left(rows[u]) + Budget(rows - {u})
  {
    var v :| v in rows && Budget(rows) == Left(rows[v]) + Budget(rows - {v});
    if v != u {
      BudgetSplit(rows - {v}, u);
      BudgetSplit(rows - {u}, v);
      assert rows - {u} - {v} == rows - {v} - {u};
    }
  }

  // Every pass uses up at least one of the attempts that are left.
  lemma PassSpends(rows: Table, component: string, p: Pass)
    requires PassAllowed(rows, component, p)
    ensures Budget(PassRows(rows, p)) < Budget(rows)
  {
    var t := PassRows(rows, p);
    BudgetSplit(rows, p.uuid);
    BudgetSplit(t, p.uuid);
    assert t - {p.uuid} == rows - {p.uuid};
  }

  lemma PassKeepsOrder(passes: seq<Pass>, rows: Table, component: string, p: Pass)
    requires PassAllowed(rows, component, p)
    requires Ordered(passes) && Ahead(passes, rows, component)
    requires forall i :: 0 <= i < |passes| ==> passes[i].now <= p.now
    ensures Ordered(passes + [p]) && Ahead(passes + [p], PassRows(rows, p), component)
  {
    var t, all := PassRows(rows, p), passes + [p];
    forall i, u | 0 <= i < |all| && u in t && Eligible(t[u], component, all[i].now)
      ensures all[i].attempts <= t[u].attempts
    {
      if u == p.uuid {
        BackoffMonotone(p.attempts, p.attempts + 1);
        assert Eligible(rows[u], component, all[i].now);
      }
    }
  }

  /******* The queue *******/

  class Queue {
    const component: string
    var rows: Table
    var clock: int
    ghost var passes: seq<Pass>

    constructor (component: string, rows: Table, clock: int)
      ensures this.component == component && this.rows == rows && this.clock == clock && passes == []
    {
      this.component, this.rows, this.clock, passes := component, rows, clock, [];
    }

    method ReadClock() returns (now: int)
      modifies this`clock
      ensures now == clock && clock >= old(clock)
    {
      var elapsed: nat :| true;
      clock := clock + elapsed;
      now := clock;
    }

    // The worker's job: anything may come out of it, and it does not touch the command table.
    method Work() returns (outcome: Outcome)
    {
      outcome :| true;
    }

    method Process(u: Uuid, command: Command, ghost now: int) returns (ghost p: Pass)
      requires u in rows && command == rows[u] && now <= clock
      modifies this`rows, this`clock
      ensures p.uuid == u && p.now == now && p.attempts == command.attempts
      ensures now <= p.startedAt <= p.finishedAt <= clock
      ensures rows == PassRows(old(rows), p)
    {
      var attempt := command.attempts + 1;
      var startedAt := ReadClock();
      rows := rows[u := StartUpdate(rows[u], attempt, startedAt)];
      var outcome := Work();
      var finishedAt := ReadClock();
      rows := rows[u := ReportUpdate(rows[u], command.maxAttempts, attempt, outcome, finishedAt)];
      p := Pass(u, now, command.attempts, startedAt, finishedAt, outcome);
    }

    method FetchAndProcess() returns (found: bool, ghost pass: Option<Pass>)
      modifies this
      ensures clock >= old(clock) && found == pass.Some?
      ensures found ==>
                && passes == old(passes) + [pass.value]
                && PassAllowed(old(rows), component, pass.value)
                && old(clock) <= pass.value.now <= clock
                && rows == PassRows(old(rows), pass.value)
                && PassDone(old(rows), rows, component, pass.value)
      ensures !found ==> passes == old(passes) && rows == old(rows) && Drained(rows, component, clock)
    {
      var now := ReadClock();
      if u :| u in rows && Selected(rows, {}, component, now, u) {
        ghost var p := Process(u, rows[u], now);
        PassMeans(old(rows), component, p);
        passes := passes + [p];
        found, pass := true, Some(p);
      } else {
        forall u | u in rows ensures !Due(rows[u], component, now) {
          DueIsEligible(rows[u], component, now);
          if Eligible(rows[u], component, now) {
            SelectionTotal(rows, {}, component, now, u);
          }
        }
        found, pass := false, None;
      }
    }

    // Draining terminates, leaves nothing eligible at the last clock reading, makes no more passes
    // than attempts were left, and picks in order of attempts while the clock stands still.
    method FetchAndProcessQueued() returns (count: nat, ghost mine: seq<Pass>)
      modifies this
      ensures Drained(rows, component, clock)
      ensures passes == old(passes) + mine && |mine| == count
      ensures count + Budget(rows) <= Budget(old(rows))
      ensures Ordered(mine)
      ensures rows.Keys == old(rows).Keys
    {
      count, mine := 0, [];
      while true
        invariant passes == old(passes) + mine && |mine| == count
        invariant count + Budget(rows) <= Budget(old(rows)) && rows.Keys == old(rows).Keys
        invariant Ordered(mine) && Ahead(mine, rows, component)
        invariant forall i :: 0 <= i < |mine| ==> mine[i].now <= clock
        decreases Budget(rows)
      {
        ghost var before := rows;
        var found, pass := FetchAndProcess();
        if !found {
          break;
        }
        count := count + 1;
        StepOfDrain(mine, before, rows, pass.value);
        mine := mine + [pass.value];
      }
    }

    lemma StepOfDrain(passes: seq<Pass>, before: Table, after: Table, p: Pass)
      requires PassAllowed(before, component, p) && after == PassRows(before, p)
      requires Ordered(passes) && Ahead(passes, before, component)
      requires forall i :: 0 <= i < |passes| ==> passes[i].now <= p.now
      ensures Ordered(passes + [p]) && Ahead(passes + [p], after, component)
      ensures Budget(after) < Budget(before)
    {
      PassSpends(before, component, p);
      PassKeepsOrder(passes, before, component, p);
    }
  }

  /******* The class refines the protocol *******/

  // One undisturbed pass of the class is a run of the protocol with the same effect on the table.
  lemma PassIsProtocolRun(s: State, w: WorkerId, p: Pass) returns (acts: seq<Action>, t: State)
    requires w in s.workers && s.workers[w].phase.Idle? && Locked(s) == {} && s.clock == p.now
    requires PassAllowed(s.rows, s.workers[w].component, p)
    ensures Path(s, acts, t)
    ensures t.rows == PassRows(s.rows, p) && t.workers == s.workers && t.clock == p.finishedAt
  {
    assert s.workers[w].pending == map[] by {
      assert forall u :: u in s.workers[w].pending ==> u in Locked(s);
    }
    var a1, s1 := StartHalf(s, w, p);
    var s2 := Apply(s1, Tick(p.finishedAt - s.clock));
    assert [Tick(p.finishedAt - s.clock)][1..] == [];
    assert Path(s2, [], s2) && Path(s1, [Tick(p.finishedAt - s.clock)], s2);
    var a2;
    a2, t := ReportHalf(s2, w, p.outcome);
    PathConcat(s, a1, s1, [Tick(p.finishedAt - s.clock)], s2);
    PathConcat(s, a1 + [Tick(p.finishedAt - s.clock)], s2, a2, t);
    acts := a1 + [Tick(p.finishedAt - s.clock)] + a2;
  }

  lemma StartHalf(s: State, w: WorkerId, p: Pass) returns (acts: seq<Action>, t: State)
    requires w in s.workers && s.workers[w].phase.Idle? && Locked(s) == {} && s.clock == p.now
    requires PassAllowed(s.rows, s.workers[w].component, p)
    ensures Path(s, acts, t)
    ensures var c := s.rows[p.uuid];
            && t.rows == s.rows[p.uuid := StartUpdate(c, c.attempts + 1, p.startedAt)]
            && t.workers == s.workers[w := Worker(s.workers[w].component, Working(p.uuid, c, c.attempts + 1), map[])]
            && t.clock == s.clock && Locked(t) == {}
  {
    acts := [Select(w, p.uuid, p.startedAt), CommitStart(w)];
    var s1 := Apply(s, acts[0]);
    t := Apply(s1, acts[1]);
    TwoSteps(s, acts[0], acts[1]);
    assert forall v, u :: v in t.workers && u in t.workers[v].pending ==> u in Locked(s);
  }

  lemma ReportHalf(s: State, w: WorkerId, outcome: Outcome) returns (acts: seq<Action>, t: State)
    requires w in s.workers && s.workers[w].phase.Working? && s.workers[w].phase.uuid in s.rows && Locked(s) == {}
    ensures Path(s, acts, t)
    ensures var p := s.workers[w].phase;
            && t.rows == s.rows[p.uuid :=
                 ReportUpdate(s.rows[p.uuid], p.command.maxAttempts, p.attempt, outcome, s.clock)]
            && t.workers == s.workers[w := Worker(s.workers[w].component, Idle, map[])]
            && t.clock == s.clock
  {
    acts := [Report(w, outcome), CommitReport(w)];
    var s1 := Apply(s, acts[0]);
    t := Apply(s1, acts[1]);
    TwoSteps(s, acts[0], acts[1]);
  }
}
