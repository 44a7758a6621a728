/** Schedules of several workers: the execution bound is attained, and without a sole worker a
    finished command can be reopened. */
module CommandSchedules {
  import opened Common
  import opened CommandQueries
  import opened CommandProtocol

  // A single row whose backoff holds nobody back, no lock held, workers lo..hi-1 idle.
  ghost predicate Calm(s: State, u: Uuid, max: nat, lo: nat, hi: nat) {
    && s.rows.Keys == {u}
    && s.rows[u].maxAttempts == max
    && s.rows[u].createdAt < s.clock - Backoff(max)
    && (forall w :: w in s.workers ==> s.workers[w].component == s.rows[u].component && s.workers[w].pending == map[])
    && (forall w :: lo <= w < hi ==> w in s.workers && s.workers[w].phase == Idle)
  }

  ghost predicate Ready(c: Command, attempts: nat) {
    c.attempts == attempts && (c.state == NewCommand || c.state == ErrorCommand)
  }

  // The workers below lo are as before.
  ghost predicate SameBelow(s: State, t: State, lo: nat) {
    t.workers.Keys == s.workers.Keys && forall v :: v in s.workers && v < lo ==> t.workers[v] == s.workers[v]
  }

  // Worker w executes attempt k of u.
  ghost predicate Busy(s: State, w: WorkerId, u: Uuid, k: nat) {
    w in s.workers && s.workers[w].phase.Working? && s.workers[w].phase.uuid == u && s.workers[w].phase.attempt == k
  }

  lemma CanSelect(s: State, u: Uuid, a: nat, max: nat, w: nat, hi: nat)
    requires Calm(s, u, max, w, hi) && Ready(s.rows[u], a) && a < max && w < hi
    ensures Enabled(s, Select(w, u, s.clock))
  {
    BackoffMonotone(a, max);
    assert Locked(s) == {};
    assert Selected(s.rows, {}, s.workers[w].component, s.clock, u);
  }

  lemma StartBy(s: State, u: Uuid, a: nat, max: nat, w: nat, hi: nat) returns (acts: seq<Action>, t: State)
    requires Calm(s, u, max, w, hi) && Ready(s.rows[u], a) && a < max && w < hi
    ensures Path(s, acts, t)
    ensures Calm(t, u, max, w + 1, hi) && Ready(t.rows[u], a + 1) && SameBelow(s, t, w) && Busy(t, w, u, a + 1)
    ensures TotalStarts(t.log, u) == TotalStarts(s.log, u) + 1
  {
    CanSelect(s, u, a, max, w, hi);
    var s1 := Apply(s, Select(w, u, s.clock));
    Appended(s1.log, Started(u, a + 1, s1.clock), u, 0);
    t := Apply(s1, CommitStart(w));
    acts := [Select(w, u, s.clock), CommitStart(w)];
    TwoSteps(s, acts[0], acts[1]);
  }

  lemma FinishBy(s: State, u: Uuid, k: nat, max: nat, w: nat, hi: nat, outcome: Outcome)
    returns (acts: seq<Action>, t: State)
    requires Calm(s, u, max, w + 1, hi) && Busy(s, w, u, k) && w < hi
    requires outcome == Raised || outcome == Succeeded
    ensures Path(s, acts, t)
    ensures Calm(t, u, max, w, hi) && SameBelow(s, t, w)
    ensures if outcome == Raised then Ready(t.rows[u], k) else t.rows[u].state == DoneCommand
    ensures TotalStarts(t.log, u) == TotalStarts(s.log, u)
  {
    assert Locked(s) == {};
    var s1 := Apply(s, Report(w, outcome));
    Appended(s1.log, Finished(u, s1.workers[w].phase.attempt, outcome), u, 0);
    t := Apply(s1, CommitReport(w));
    acts := [Report(w, outcome), CommitReport(w)];
    TwoSteps(s, acts[0], acts[1]);
  }

  // Worker a starts attempt a+1, the others exhaust the row above it, worker a's late failure moves
  // `attempts` back to a+1, and the others exhaust the row once more.
  lemma {:induction false} Exhaust(s: State, u: Uuid, a: nat, max: nat) returns (acts: seq<Action>, t: State)
    requires Calm(s, u, max, a, max) && Ready(s.rows[u], a) && a <= max
    ensures Path(s, acts, t)
    ensures Calm(t, u, max, a, max) && Ready(t.rows[u], max) && SameBelow(s, t, a)
    ensures TotalStarts(t.log, u) == TotalStarts(s.log, u) + Pow2(max - a) - 1
    decreases max - a, 1
  {
    if a == max {
      acts, t := [], s;
    } else {
      var b1, s1 := StartBy(s, u, a, max, a, max);
      var b2, s2 := ExhaustAbove(s1, u, a, max);
      var b3, s3 := FinishBy(s2, u, a + 1, max, a, max, Raised);
      var b4;
      b4, t := ExhaustAbove(s3, u, a, max);
      PathConcat(s, b1, s1, b2, s2);
      PathConcat(s2, b3, s3, b4, t);
      PathConcat(s, b1 + b2, s2, b3 + b4, t);
      acts := b1 + b2 + (b3 + b4);
    }
  }

  // The same for the workers above a, whether worker a is idle or busy with attempt a+1.
  lemma {:induction false} ExhaustAbove(s: State, u: Uuid, a: nat, max: nat) returns (acts: seq<Action>, t: State)
    requires a < max && Calm(s, u, max, a + 1, max) && Ready(s.rows[u], a + 1)
    ensures Path(s, acts, t)
    ensures Calm(t, u, max, a + 1, max) && Ready(t.rows[u], max) && SameBelow(s, t, a + 1)
    ensures TotalStarts(t.log, u) == TotalStarts(s.log, u) + Pow2(max - a - 1) - 1
    decreases max - a, 0
  {
    acts, t := Exhaust(s, u, a + 1, max);
  }

  function Idlers(n: nat): (m: map<WorkerId, Worker>)
    ensures forall w: nat :: w in m <==> w < n
    ensures forall w: nat :: w in m ==> m[w] == Worker("worker", Idle, map[])
  {
    if n == 0 then map[] else Idlers(n - 1)[n - 1 := Worker("worker", Idle, map[])]
  }

  function Fresh(u: Uuid, a0: nat, max: nat, workers: nat): State {
    State(map[u := Command(NewCommand, "worker", a0, max, 0, 0)], Idlers(workers), Backoff(max) + 1, [])
  }

  lemma FreshIsCalm(u: Uuid, a0: nat, max: nat, workers: nat)
    ensures var s := Fresh(u, a0, max, workers);
            Init(s) && Calm(s, u, max, 0, workers) && Ready(s.rows[u], a0)
  {
  }

  lemma CalmAbove(s: State, u: Uuid, max: nat, lo: nat, hi: nat, above: nat)
    requires Calm(s, u, max, lo, hi) && lo <= above
    ensures Calm(s, u, max, above, hi)
  {
  }

  // The bound of ExecutionBound cannot be improved: for every a0 <= max some schedule reaches it.
  lemma BoundAttained(u: Uuid, a0: nat, max: nat) returns (s0: State, acts: seq<Action>)
    requires a0 <= max
    ensures Init(s0) && Runs(s0, acts) && u in s0.rows
    ensures s0.rows[u].attempts == a0 && s0.rows[u].maxAttempts == max
    ensures TotalStarts(Exec(s0, acts).log, u) == Pow2(max - a0) - 1
  {
    s0 := Fresh(u, a0, max, max);
    FreshIsCalm(u, a0, max, max);
    CalmAbove(s0, u, max, 0, max, a0);
    var t;
    acts, t := Exhaust(s0, u, a0, max);
  }

  // With two workers Done is not final: a late failure reopens the command and it runs again.
  lemma DoneReopened(u: Uuid) returns (s0: State, acts: seq<Action>, more: seq<Action>)
    ensures Init(s0) && Runs(s0, acts) && Runs(Exec(s0, acts), more) && s0.workers.Keys == {0, 1}
    ensures var s, t := Exec(s0, acts), Exec(Exec(s0, acts), more);
            && u in s.rows && s.rows[u].state == DoneCommand
            && u in t.rows && t.rows[u].state != DoneCommand
            && TotalStarts(t.log, u) > TotalStarts(s.log, u)
  {
    s0 := Fresh(u, 0, 3, 2);
    FreshIsCalm(u, 0, 3, 2);
    assert s0.workers.Keys == {0, 1};
    var b1, s1 := StartBy(s0, u, 0, 3, 0, 2);
    var b2, s2 := StartBy(s1, u, 1, 3, 1, 2);
    var b3, s3 := FinishBy(s2, u, 2, 3, 1, 2, Succeeded);
    PathConcat(s0, b1, s1, b2, s2);
    PathConcat(s0, b1 + b2, s2, b3, s3);
    acts := b1 + b2 + b3;
    var t;
    more, t := Reopen(s3, u);
  }

  lemma Reopen(s: State, u: Uuid) returns (more: seq<Action>, t: State)
    requires Calm(s, u, 3, 1, 2) && Busy(s, 0, u, 1)
    ensures Path(s, more, t) && Calm(t, u, 3, 1, 2) && Ready(t.rows[u], 2)
    ensures TotalStarts(t.log, u) > TotalStarts(s.log, u)
  {
    var b4, s4 := FinishBy(s, u, 1, 3, 0, 2, Raised);
    var b5;
    b5, t := StartBy(s4, u, 1, 3, 0, 2);
    PathConcat(s, b4, s4, b5, t);
    more := b4 + b5;
  }

  /******* When Done is final *******/

  ghost predicate Done(s: State, u: Uuid) {
    u in s.rows && s.rows[u].state == DoneCommand
  }

  // w still executes u, or is about to commit a report that is not a success.
  predicate Threatens(s: State, u: Uuid, w: WorkerId) {
    && w in s.workers
    && (s.workers[w].phase.Working? || (s.workers[w].phase.Reported? && !s.workers[w].phase.outcome.Succeeded?))
    && s.workers[w].phase.uuid == u
  }

  ghost predicate Safe(s: State, u: Uuid) {
    Shape(s) && Done(s, u) && forall w :: !Threatens(s, u, w)
  }

  lemma SafeStep(s: State, a: Action, u: Uuid)
    requires Safe(s, u) && Enabled(s, a)
    ensures Safe(Apply(s, a), u)
  {
    WorkersMove(s, a);
    RowsStep(s, a);
    ShapeStep(s, a);
    if !a.Tick? {
      assert WorkerOk(s, s.workers[a.w]) && !Threatens(s, u, a.w);
    }
    forall w ensures !Threatens(Apply(s, a), u, w) {
      assert !Threatens(s, u, w);
    }
  }

  lemma {:induction false} SafeRun(s: State, acts: seq<Action>, u: Uuid)
    requires Safe(s, u) && Runs(s, acts)
    ensures Safe(Exec(s, acts), u)
    decreases |acts|
  {
    if acts != [] {
      SafeStep(s, acts[0], u);
      SafeRun(Apply(s, acts[0]), acts[1..], u);
    }
  }

  ghost predicate LeadsOut(s: State, acts: seq<Action>, u: Uuid) {
    Runs(s, acts) && !Done(Exec(s, acts), u)
  }

  // w reports an exception and commits it, over the Done.
  lemma FailNow(s: State, u: Uuid, w: WorkerId) returns (acts: seq<Action>)
    requires Shape(s) && u in s.rows && u !in Locked(s)
    requires Threatens(s, u, w) && s.workers[w].phase.Working?
    ensures LeadsOut(s, acts, u)
  {
    acts := [Report(w, Raised), CommitReport(w)];
    TwoSteps(s, acts[0], acts[1]);
  }

  lemma Overwrite(s: State, u: Uuid, w: WorkerId) returns (acts: seq<Action>)
    requires Shape(s) && Done(s, u) && Threatens(s, u, w)
    ensures LeadsOut(s, acts, u)
  {
    assert WorkerOk(s, s.workers[w]);
    if s.workers[w].phase.Reported? {
      acts := [CommitReport(w)];
      assert acts[1..] == [] && Runs(Apply(s, acts[0]), []);
    } else if u !in Locked(s) {
      acts := FailNow(s, u, w);
    } else {
      var v :| v in s.workers && u in s.workers[v].pending;
      acts := CrashAndFail(s, u, w, v);
    }
  }

  // Whoever locks the row may crash.
  lemma CrashAndFail(s: State, u: Uuid, w: WorkerId, v: WorkerId) returns (acts: seq<Action>)
    requires Shape(s) && Done(s, u) && Threatens(s, u, w) && s.workers[w].phase.Working?
    requires v in s.workers && u in s.workers[v].pending
    ensures LeadsOut(s, acts, u)
  {
    assert WorkerOk(s, s.workers[w]);
    var t := Apply(s, Crash(v));
    ShapeStep(s, Crash(v));
    forall x | x in t.workers ensures u !in t.workers[x].pending {
      assert x != v ==> s.workers[x].pending.Keys !! s.workers[v].pending.Keys;
    }
    var rest := FailNow(t, u, w);
    acts := [Crash(v)] + rest;
    assert acts[0] == Crash(v) && acts[1..] == rest;
  }

  // In any state some run leads a command out of Done exactly if a worker still executes it or has an
  // unsuccessful report of it to commit.
  lemma DoneIsLost(s: State, u: Uuid)
    requires Shape(s) && Done(s, u)
    ensures (exists acts :: LeadsOut(s, acts, u)) <==> (exists w :: Threatens(s, u, w))
  {
    if w :| Threatens(s, u, w) {
      var acts := Overwrite(s, u, w);
    } else {
      forall acts | Runs(s, acts) ensures Done(Exec(s, acts), u) {
        SafeRun(s, acts, u);
      }
    }
  }
}
