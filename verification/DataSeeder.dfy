/** Executing a seed recipe: its scripts run in the transactions of several databases, which are committed
    one after another, under a command queue whose table is in the default database. */
module DataSeeder {
  import opened Common
  import opened CommandQueries
  import opened SeedRecipes

  // A statement file with the tenant it was filled in for.
  datatype Sql = Sql(path: string, tenant: string)

  datatype Step = Step(target: Option<string>, sql: Sql)

  datatype Recipe = Recipe(directives: seq<Directive>, transfers: nat)

  function Plan(r: Recipe, tenant: string): seq<Step> {
    seq(|r.directives|, i requires 0 <= i < |r.directives| =>
      Step(r.directives[i].target, Sql(r.directives[i].path, tenant)))
  }

  // The recipe of a file: the scripts of its ordered dictionary, one after another.
  method LoadRecipe(entries: seq<ScriptEntry>, root: string, glob: map<string, seq<string>>, transfers: nat)
    returns (r: Recipe)
    requires DistinctGlobs(glob)
    ensures r == Recipe(Directives(entries, root, glob), transfers)
  {
    var ids, scripts := FromDict(entries, root, glob);
    var directives := InOrder(ids, scripts, Directives(entries, root, glob));
    r := Recipe(directives, transfers);
  }

  // What a database gets of a recipe file, entry by entry in the order of the file.
  function FileOwn(dbs: set<Db>, entries: seq<ScriptEntry>, root: string, glob: map<string, seq<string>>,
                   tenant: string, db: Db): seq<Sql> {
    if entries == [] then []
    else
      var n := |entries| - 1;
      FileOwn(dbs, entries[..n], root, glob, tenant, db)
      + if Home(dbs, entries[n].target) == db then Filled(Files(entries[n], root, glob), tenant) else []
  }

  function Filled(files: seq<string>, tenant: string): seq<Sql> {
    seq(|files|, i requires 0 <= i < |files| => Sql(files[i], tenant))
  }

  lemma {:induction false} OwnAppend(dbs: set<Db>, a: seq<Step>, b: seq<Step>, db: Db)
    ensures Own(dbs, a + b, db) == Own(dbs, a, db) + Own(dbs, b, db)
  {
    if b == [] {
      assert a + b == a;
    } else {
      var n := |b| - 1;
      OwnAppend(dbs, a, b[..n], db);
      assert (a + b)[..|a + b| - 1] == a + b[..n];
    }
  }

  lemma {:induction false} OwnOfEntry(dbs: set<Db>, files: seq<string>, target: Option<string>, order: nat,
                                      tenant: string, db: Db)
    ensures Own(dbs, Plan(Recipe(Located(files, target, order), 0), tenant), db)
            == if Home(dbs, target) == db then Filled(files, tenant) else []
  {
    if files != [] {
      var n := |files| - 1;
      OwnOfEntry(dbs, files[..n], target, order, tenant, db);
      assert Plan(Recipe(Located(files, target, order), 0), tenant)[..n]
          == Plan(Recipe(Located(files[..n], target, order), 0), tenant);
      assert Filled(files, tenant) == Filled(files[..n], tenant) + [Sql(files[n], tenant)];
    }
  }

  // The scripts of a loaded recipe that belong to a database are those of the file's entries for it, in
  // the order of the file; so this is what a successful execution commits.
  lemma {:induction false} OwnInFileOrder(dbs: set<Db>, entries: seq<ScriptEntry>, root: string,
                                          glob: map<string, seq<string>>, transfers: nat, tenant: string, db: Db)
    ensures Own(dbs, Plan(Recipe(Directives(entries, root, glob), transfers), tenant), db)
            == FileOwn(dbs, entries, root, glob, tenant, db)
  {
    if entries != [] {
      var n := |entries| - 1;
      var files := Files(entries[n], root, glob);
      var before, last := Directives(entries[..n], root, glob), Located(files, entries[n].target, n);
      OwnInFileOrder(dbs, entries[..n], root, glob, transfers, tenant, db);
      OwnOfEntry(dbs, files, entries[n].target, n, tenant, db);
      PlanAppend(before, last, transfers, tenant);
      OwnAppend(dbs, Plan(Recipe(before, transfers), tenant), Plan(Recipe(last, 0), tenant), db);
    }
  }

  lemma PlanAppend(a: seq<Directive>, b: seq<Directive>, transfers: nat, tenant: string)
    ensures Plan(Recipe(a + b, transfers), tenant) == Plan(Recipe(a, transfers), tenant) + Plan(Recipe(b, 0), tenant)
  {
  }

  // A database is the history of statements it has executed; the default one is `None`.
  type Db = Option<string>
  datatype Conn = Conn(committed: seq<Sql>, pending: seq<Sql>)
  type Conns = map<Db, Conn>

  // Unknown targets go to the default database.
  function Home(dbs: set<Db>, target: Option<string>): Db {
    if target in dbs then target else None
  }

  // The scripts of a plan that belong to one database.
  function Own(dbs: set<Db>, steps: seq<Step>, db: Db): seq<Sql> {
    if steps == [] then []
    else
      var n := |steps| - 1;
      Own(dbs, steps[..n], db) + if Home(dbs, steps[n].target) == db then [steps[n].sql] else []
  }

  // The same from the front, with the home of a script written out: the database of its name, or else the
  // default one.
  function Part(dbs: set<Db>, steps: seq<Step>, db: Db): seq<Sql> {
    if steps == [] then []
    else
      (if (db in dbs && steps[0].target == db) || (db == None && steps[0].target !in dbs) then [steps[0].sql] else [])
      + Part(dbs, steps[1..], db)
  }

  lemma {:induction false} PartAppend(dbs: set<Db>, a: seq<Step>, b: seq<Step>, db: Db)
    ensures Part(dbs, a + b, db) == Part(dbs, a, db) + Part(dbs, b, db)
  {
    if a == [] {
      assert a + b == b;
    } else {
      PartAppend(dbs, a[1..], b, db);
      assert (a + b)[0] == a[0] && (a + b)[1..] == a[1..] + b;
      var own := if (db in dbs && a[0].target == db) || (db == None && a[0].target !in dbs) then [a[0].sql] else [];
      Associative(own, Part(dbs, a[1..], db), Part(dbs, b, db));
    }
  }

  lemma Associative(a: seq<Sql>, b: seq<Sql>, c: seq<Sql>)
    ensures (a + b) + c == a + (b + c)
  {
  }

  lemma {:induction false} OwnIsPart(dbs: set<Db>, steps: seq<Step>, db: Db)
    requires db in dbs
    ensures Own(dbs, steps, db) == Part(dbs, steps, db)
  {
    if steps != [] {
      var n := |steps| - 1;
      OwnIsPart(dbs, steps[..n], db);
      PartAppend(dbs, steps[..n], [steps[n]], db);
      assert steps == steps[..n] + [steps[n]] && [steps[n]][1..] == [];
    }
  }

  function Targets(dbs: set<Db>, steps: seq<Step>): set<Db> {
    {None} + set s | s in steps :: Home(dbs, s.target)
  }

  lemma {:induction false} OwnOfOthers(dbs: set<Db>, steps: seq<Step>, db: Db)
    requires db !in Targets(dbs, steps)
    ensures Own(dbs, steps, db) == []
  {
    if steps != [] {
      var n := |steps| - 1;
      assert forall s :: s in steps[..n] ==> s in steps;
      assert steps[n] in steps;
      OwnOfOthers(dbs, steps[..n], db);
    }
  }

  /******* What one execution leaves behind *******/

  // The fate of one database's transaction.
  datatype Fate = Open | RolledBack | Committed

  predicate Left(before: Conn, after: Conn, own: seq<Sql>, fate: Fate) {
    match fate
    case Open => after == Conn(before.committed, before.pending + own)
    case RolledBack => after == Conn(before.committed, [])
    case Committed => after == Conn(before.committed + before.pending + own, [])
  }

  // All transactions are open and hold what their databases got of the given steps.
  ghost predicate Running(before: Conns, after: Conns, steps: seq<Step>) {
    && after.Keys == before.Keys
    && forall db :: db in before ==> Left(before[db], after[db], Own(before.Keys, steps, db), Open)
  }

  function Run(conns: Conns, s: Step): Conns
    requires None in conns
  {
    var conn := conns[Home(conns.Keys, s.target)];
    conns[Home(conns.Keys, s.target) := conn.(pending := conn.pending + [s.sql])]
  }

  lemma RunningNext(before: Conns, after: Conns, steps: seq<Step>, s: Step)
    requires None in before && Running(before, after, steps)
    ensures Running(before, Run(after, s), steps + [s])
    ensures Targets(before.Keys, steps + [s]) == Targets(before.Keys, steps) + {Home(before.Keys, s.target)}
  {
    assert (steps + [s])[..|steps|] == steps;
    forall db | db in before ensures Left(before[db], Run(after, s)[db], Own(before.Keys, steps + [s], db), Open) {
      assert Left(before[db], after[db], Own(before.Keys, steps, db), Open);
      Associative(before[db].pending, Own(before.Keys, steps, db), [s.sql]);
    }
  }

  // The used targets after one more script.
  lemma UsedNext(dbs: set<Db>, steps: seq<Step>, n: nat, used: set<Db>)
    requires n < |steps| && Targets(dbs, steps[..n]) == used + {None}
    ensures var home := Home(dbs, steps[n].target);
            var more := if home.Some? then used + {home} else used;
            used <= more && Targets(dbs, steps[..n + 1]) == more + {None} <= Targets(dbs, steps)
  {
    var home := Home(dbs, steps[n].target);
    assert steps[..n + 1] == steps[..n] + [steps[n]];
    assert Targets(dbs, steps[..n + 1]) == Targets(dbs, steps[..n]) + {home};
    forall s | s in steps[..n + 1] ensures Home(dbs, s.target) in Targets(dbs, steps) {
      assert s in steps;
    }
  }

  datatype Flow = Next | Raised | Expired | Killed

  // `ran` scripts were executed and the transactions ended as `fates` tell.
  ghost predicate Executed(before: Conns, after: Conns, steps: seq<Step>, ran: nat, fates: map<Db, Fate>) {
    && after.Keys == before.Keys == fates.Keys && ran <= |steps|
    && forall db :: db in before ==> Left(before[db], after[db], Own(before.Keys, steps[..ran], db), fates[db])
  }

  // A complete execution commits every database of the plan; a failed one changes none; an interrupted
  // one commits none, or has run all scripts and committed the default database.
  ghost predicate Ends(before: Conns, steps: seq<Step>, f: Flow, ran: nat, fates: map<Db, Fate>) {
    match f
    case Next =>
      && ran == |steps|
      && forall db :: db in fates ==> fates[db] == if db in Targets(before.Keys, steps) then Committed else Open
    case Raised =>
      && ran <= |steps| && (None in fates ==> fates[None].RolledBack?)
      && forall db :: db in fates ==>
           fates[db].RolledBack? || (fates[db].Open? && Own(before.Keys, steps[..ran], db) == [])
    case _ =>
      forall db :: db in fates && fates[db].Committed? ==>
        ran == |steps| && db in Targets(before.Keys, steps) && None in fates && fates[None].Committed?
  }

  function Fates(dbs: set<Db>, done: set<Db>, fate: Fate): map<Db, Fate> {
    map db | db in dbs :: if db in done then fate else Open
  }

  lemma FatesExecuted(before: Conns, scripted: Conns, after: Conns, steps: seq<Step>, ran: nat, done: set<Db>,
                      fate: Fate)
    requires ran <= |steps| && Running(before, scripted, steps[..ran]) && after.Keys == scripted.Keys
    requires forall db :: db in scripted ==> Left(scripted[db], after[db], [], if db in done then fate else Open)
    ensures Executed(before, after, steps, ran, Fates(after.Keys, done, fate))
  {
    var fates := Fates(after.Keys, done, fate);
    forall db | db in before ensures Left(before[db], after[db], Own(before.Keys, steps[..ran], db), fates[db]) {
      var own := Own(before.Keys, steps[..ran], db);
      assert Left(before[db], scripted[db], own, Open);
      assert before[db].committed + (before[db].pending + own) == before[db].committed + before[db].pending + own;
    }
  }

  lemma FatesEnd(before: Conns, steps: seq<Step>, f: Flow, ran: nat, used: set<Db>, done: set<Db>, fate: Fate)
    requires None in before && ran <= |steps|
    requires Targets(before.Keys, steps[..ran]) <= used + {None} <= Targets(before.Keys, steps)
    requires done <= used + {None} && (done != {} ==> None in done)
    requires f.Next? || f.Raised? ==> done == used + {None}
    requires f.Next? ==> fate.Committed? && ran == |steps|
    requires f.Raised? ==> fate.RolledBack?
    requires fate.RolledBack? || ran == |steps| || done == {}
    ensures Ends(before, steps, f, ran, Fates(before.Keys, done, fate))
  {
    if f.Next? {
      assert steps[..ran] == steps;
    }
    if f.Raised? {
      forall db | db in before && db !in done ensures Own(before.Keys, steps[..ran], db) == [] {
        OwnOfOthers(before.Keys, steps[..ran], db);
      }
    }
  }

  function Ended(c: Conn, fate: Fate): Conn {
    match fate
    case Open => c
    case RolledBack => Conn(c.committed, [])
    case Committed => Conn(c.committed + c.pending, [])
  }

  /******* One pass of the queue *******/

  datatype Order = Order(command: Command, tenant: string, recipe: Option<string>)
  type Orders = map<Uuid, Order>

  const COMPONENT := "data_seeder"

  function Commands(orders: Orders): Table {
    map u | u in orders :: orders[u].command
  }

  // What the execution `f` of a pass did to the databases, up to and including the commit of its report on
  // the default connection; a crash drops every open transaction instead.
  ghost predicate PassLeaves(before: Conns, scripted: Conns, after: Conns, steps: seq<Step>, f: Flow, ran: nat,
                             fates: map<Db, Fate>) {
    && None in before
    && Executed(before, scripted, steps, ran, fates) && Ends(before, steps, f, ran, fates)
    && after == if f.Killed? then Dropped(scripted) else scripted[None := Ended(scripted[None], Committed)]
  }

  function Dropped(conns: Conns): Conns {
    map db | db in conns :: Ended(conns[db], RolledBack)
  }

  predicate At(s: seq<Sql>, t: seq<Sql>, i: nat) {
    i + |t| <= |s| && s[i..i + |t|] == t
  }

  ghost predicate Contains(s: seq<Sql>, t: seq<Sql>) {
    exists i: nat :: At(s, t, i)
  }

  lemma ContainsGrows(s: seq<Sql>, r: seq<Sql>, t: seq<Sql>)
    requires Contains(s, t)
    ensures Contains(s + r, t)
  {
    var i: nat :| At(s, t, i);
    assert (s + r)[i..i + |t|] == t;
    assert At(s + r, t, i);
  }

  // Every database has executed its scripts of the plan, in order and without others in between.
  ghost predicate Seeded(conns: Conns, steps: seq<Step>) {
    forall db :: db in conns ==> Contains(conns[db].committed, Own(conns.Keys, steps, db))
  }

  lemma SeededMeans(conns: Conns, steps: seq<Step>, db: Db) returns (a: seq<Sql>, b: seq<Sql>)
    requires Seeded(conns, steps) && db in conns
    ensures conns[db].committed == a + Part(conns.Keys, steps, db) + b
  {
    OwnIsPart(conns.Keys, steps, db);
    a, b := Surroundings(conns[db].committed, Own(conns.Keys, steps, db));
  }

  lemma Surroundings(c: seq<Sql>, part: seq<Sql>) returns (a: seq<Sql>, b: seq<Sql>)
    requires Contains(c, part)
    ensures c == a + part + b
  {
    var i: nat :| At(c, part, i);
    a, b := c[..i], c[i + |part|..];
  }

  // Committed statements stay.
  lemma PassExtends(before: Conns, scripted: Conns, after: Conns, steps: seq<Step>, f: Flow, ran: nat,
                    fates: map<Db, Fate>, db: Db)
    requires PassLeaves(before, scripted, after, steps, f, ran, fates) && db in before
    ensures db in after && before[db].committed <= after[db].committed
  {
    assert Left(before[db], scripted[db], Own(before.Keys, steps[..ran], db), fates[db]);
  }

  lemma PassGrows(before: Conns, scripted: Conns, after: Conns, steps: seq<Step>, f: Flow, ran: nat,
                  fates: map<Db, Fate>, earlier: seq<Step>)
    requires PassLeaves(before, scripted, after, steps, f, ran, fates) && Seeded(before, earlier)
    ensures Seeded(after, earlier)
  {
    PassKeys(before, scripted, after, steps, f, ran, fates);
    forall db | db in after ensures Contains(after[db].committed, Own(after.Keys, earlier, db)) {
      PassExtends(before, scripted, after, steps, f, ran, fates, db);
      var rest := after[db].committed[|before[db].committed|..];
      assert after[db].committed == before[db].committed + rest;
      ContainsGrows(before[db].committed, rest, Own(before.Keys, earlier, db));
    }
  }

  // A successful pass has seeded every database.
  lemma PassSeeds(before: Conns, scripted: Conns, after: Conns, steps: seq<Step>, ran: nat, fates: map<Db, Fate>)
    requires PassLeaves(before, scripted, after, steps, Next, ran, fates)
    ensures Seeded(after, steps)
  {
    assert after.Keys == before.Keys && steps[..ran] == steps;
    forall db | db in after ensures Contains(after[db].committed, Own(after.Keys, steps, db)) {
      var own := Own(before.Keys, steps, db);
      assert Left(before[db], scripted[db], own, fates[db]);
      if db in Targets(before.Keys, steps) {
        var start := |before[db].committed + before[db].pending|;
        assert At(scripted[db].committed, own, start);
        if db == None {
          assert after[db].committed == scripted[db].committed;
        }
      } else {
        OwnOfOthers(before.Keys, steps, db);
        assert At(after[db].committed, own, 0);
      }
    }
  }

  // Without a timeout: all of the database's own scripts, after whatever an earlier timeout has left in
  // its transaction, or nothing.
  lemma PassAt(before: Conns, scripted: Conns, after: Conns, steps: seq<Step>, f: Flow, ran: nat,
               fates: map<Db, Fate>, db: Db)
    requires PassLeaves(before, scripted, after, steps, f, ran, fates) && !f.Expired?
    requires db in before
    ensures db in after && db in fates
    ensures if fates[db].Committed? then
              after[db] == Conn(before[db].committed + before[db].pending + Own(before.Keys, steps, db), [])
            else
              after[db].committed == before[db].committed && (after[db].pending == [] || after[db] == before[db])
  {
    var own := Own(before.Keys, steps[..ran], db);
    assert Left(before[db], scripted[db], own, fates[db]);
    if fates[db].Committed? {
      assert steps[..ran] == steps;
      assert scripted[db].committed + [] == scripted[db].committed;
    } else if f.Next? {
      OwnOfOthers(before.Keys, steps[..ran], db);
    }
    assert before[db].pending + [] == before[db].pending && before[db].committed + [] == before[db].committed;
  }

  // If any script or transfer fails, no database changes.
  lemma FailedPassChangesNothing(before: Conns, scripted: Conns, after: Conns, steps: seq<Step>, ran: nat,
                                 fates: map<Db, Fate>, db: Db)
    requires PassLeaves(before, scripted, after, steps, Flow.Raised, ran, fates) && db in before
    ensures db in after && after[db].committed == before[db].committed
  {
    assert Left(before[db], scripted[db], Own(before.Keys, steps[..ran], db), fates[db]);
  }

  // A successful pass gives a database exactly its own scripts, unless it commits along with them what
  // an earlier timeout has left in the transaction of a database it uses.
  lemma SuccessfulPassIsExact(before: Conns, scripted: Conns, after: Conns, steps: seq<Step>, ran: nat,
                              fates: map<Db, Fate>, db: Db)
    requires PassLeaves(before, scripted, after, steps, Next, ran, fates) && db in before
    ensures db in after
    ensures after[db].committed == before[db].committed + Own(before.Keys, steps, db)
            <==> db !in Targets(before.Keys, steps) || before[db].pending == []
  {
    assert steps[..ran] == steps;
    var c, p, own := before[db].committed, before[db].pending, Own(before.Keys, steps, db);
    assert Left(before[db], scripted[db], own, fates[db]);
    if db in Targets(before.Keys, steps) {
      assert scripted[db].committed + [] == scripted[db].committed;
      assert |c + p + own| == |c + own| + |p|;
      assert p == [] ==> c + p + own == c + own;
    } else {
      OwnOfOthers(before.Keys, steps, db);
      assert c + own == c;
    }
  }

  // What a successful pass commits, database by database: the default one and those that a script names
  // get what was left open and their part of the plan, the others nothing.
  lemma PassCommits(before: Conns, scripted: Conns, after: Conns, steps: seq<Step>, ran: nat,
                    fates: map<Db, Fate>, db: Db)
    requires PassLeaves(before, scripted, after, steps, Next, ran, fates) && db in before
    ensures after.Keys == before.Keys
    ensures after[db] == if db == None || exists i :: 0 <= i < |steps| && steps[i].target == db
                         then Conn(before[db].committed + before[db].pending + Part(before.Keys, steps, db), [])
                         else before[db]
  {
    PassAt(before, scripted, after, steps, Next, ran, fates, db);
    OwnIsPart(before.Keys, steps, db);
    TargetNamed(before.Keys, steps, db);
    if db !in Targets(before.Keys, steps) {
      OwnOfOthers(before.Keys, steps[..ran], db);
      assert Left(before[db], scripted[db], Own(before.Keys, steps[..ran], db), Open);
    }
  }

  // A recipe that is not known plans nothing.
  lemma EmptyPassChangesNothing(before: Conns, scripted: Conns, after: Conns, f: Flow, ran: nat, fates: map<Db, Fate>,
                                db: Db)
    requires PassLeaves(before, scripted, after, [], f, ran, fates) && before[None].pending == []
    requires db in before && !f.Next?
    ensures db in after && after[db].committed == before[db].committed
  {
    assert Left(before[db], scripted[db], Own(before.Keys, [], db), fates[db]);
    assert fates[db].Committed? ==> db == None;
    if db == None {
      assert before[db].committed + [] + [] == before[db].committed;
    }
  }

  lemma PlanTargets(r: Recipe, tenant: string, db: Db)
    ensures (exists i :: 0 <= i < |Plan(r, tenant)| && Plan(r, tenant)[i].target == db)
        <==> (exists d :: d in r.directives && d.target == db)
  {
    var plan := Plan(r, tenant);
    if i :| 0 <= i < |plan| && plan[i].target == db {
      assert r.directives[i] in r.directives;
    }
    if d :| d in r.directives && d.target == db {
      var i :| 0 <= i < |r.directives| && r.directives[i] == d;
      assert plan[i].target == db;
    }
  }

  lemma TargetNamed(dbs: set<Db>, steps: seq<Step>, db: Db)
    requires db in dbs
    ensures db in Targets(dbs, steps) <==> db == None || exists i :: 0 <= i < |steps| && steps[i].target == db
  {
    if db != None && db in Targets(dbs, steps) {
      var s :| s in steps && Home(dbs, s.target) == db;
      var i :| 0 <= i < |steps| && steps[i] == s;
    }
    if i :| 0 <= i < |steps| && steps[i].target == db {
      assert steps[i] in steps;
    }
  }

  // How a script is executed twice: a timeout leaves it in the open transaction of another database, and
  // the next execution commits it together with itself.
  lemma TimeoutDoublesScript() returns (before: Conns, middle: Conns, after: Conns, steps: seq<Step>, x: Db,
                                        fates: map<Db, Fate>, later: map<Db, Fate>)
    ensures PassLeaves(before, middle, middle, steps, Expired, 1, fates)
    ensures PassLeaves(middle, after, after, steps, Next, 1, later)
    ensures x in before && before[x] == Conn([], []) && |Own(before.Keys, steps, x)| == 1
    ensures x in after && after[x].committed == Own(before.Keys, steps, x) + Own(before.Keys, steps, x)
  {
    x := Some("x");
    var s := Sql("1.sql", "t");
    steps := [Step(x, s)];
    before := map[None := Conn([], []), x := Conn([], [])];
    middle := map[None := Conn([], []), x := Conn([], [s])];
    after := map[None := Conn([], []), x := Conn([s, s], [])];
    fates := map[None := Open, x := Open];
    later := map[None := Committed, x := Committed];
    var dbs := before.Keys;
    assert steps[..1] == steps && steps[..0] == [];
    assert Own(dbs, steps, x) == [] + [s] && Own(dbs, steps, None) == [] + [];
    assert middle.Keys == dbs && after.Keys == dbs;
    assert steps[0] in steps && Targets(dbs, steps) == {None, x};
    assert middle == middle[None := Ended(middle[None], Committed)];
    assert after == after[None := Ended(after[None], Committed)];
    assert [] + [s] + [s] == [s, s];
    assert Executed(before, middle, steps, 1, fates);
    assert Executed(middle, after, steps, 1, later);
  }

  // A timed-out pass is not rolled back: the default database keeps what had run, unless a failure was
  // already being rolled back.
  lemma TimedOutPass(before: Conns, scripted: Conns, after: Conns, steps: seq<Step>, ran: nat, fates: map<Db, Fate>)
    requires PassLeaves(before, scripted, after, steps, Expired, ran, fates) && before[None].pending == []
    ensures after[None].committed == before[None].committed <==>
            fates[None].RolledBack? || Own(before.Keys, steps[..ran], None) == []
    ensures !fates[None].RolledBack? ==>
              after[None] == Conn(before[None].committed + Own(before.Keys, steps[..ran], None), [])
  {
    var own := Own(before.Keys, steps[..ran], None);
    assert Left(before[None], scripted[None], own, fates[None]);
    assert before[None].committed + [] + own == before[None].committed + own;
    assert before[None].committed + ([] + own) == before[None].committed + own;
    assert own != [] ==> |before[None].committed + own| != |before[None].committed|;
  }

  // The timeout that leaves half a recipe behind: nothing rolls back the first of two scripts.
  lemma TimeoutCommitsHalf()
    returns (before: Conns, scripted: Conns, after: Conns, steps: seq<Step>, fates: map<Db, Fate>)
    ensures PassLeaves(before, scripted, after, steps, Expired, 1, fates)
    ensures before[None] == Conn([], []) && |Own(before.Keys, steps, None)| == 2
    ensures after[None] == Conn(Own(before.Keys, steps, None)[..1], [])
  {
    before := map[None := Conn([], [])];
    var first, second := Step(None, Sql("1.sql", "t")), Step(None, Sql("2.sql", "t"));
    steps := [first, second];
    fates := map[None := Open];
    scripted := map[None := Conn([], [first.sql])];
    after := map[None := Conn([first.sql], [])];
    assert steps[..1] == [first] && [first][..0] == [];
    assert Own(before.Keys, [first], None) == [first.sql];
    assert Own(before.Keys, steps, None) == [first.sql] + [second.sql];
  }

  /******* Histories *******/

  // The scripts of the given executions that belong to one database.
  function Flat(dbs: set<Db>, plans: seq<seq<Step>>, db: Db): seq<Sql> {
    if plans == [] then []
    else Flat(dbs, plans[..|plans| - 1], db) + Own(dbs, plans[|plans| - 1], db)
  }

  // Since `first`, every database has executed whole recipes only.
  ghost predicate Whole(first: map<Db, seq<Sql>>, conns: Conns, applied: map<Db, seq<seq<Step>>>) {
    && conns.Keys == first.Keys == applied.Keys
    && forall db :: db in first ==> WholeAt(first.Keys, first[db], conns[db], applied[db], db)
  }

  function Applied(applied: map<Db, seq<seq<Step>>>, steps: seq<Step>, fates: map<Db, Fate>): map<Db, seq<seq<Step>>> {
    map db | db in applied :: if db in fates && fates[db].Committed? then applied[db] + [steps] else applied[db]
  }

  // The history of one database, executed whole recipe by whole recipe.
  predicate WholeAt(dbs: set<Db>, first: seq<Sql>, conn: Conn, plans: seq<seq<Step>>, db: Db) {
    conn == Conn(first + Flat(dbs, plans, db), [])
  }

  lemma PassWhole(first: map<Db, seq<Sql>>, before: Conns, scripted: Conns, after: Conns, steps: seq<Step>,
                  f: Flow, ran: nat, fates: map<Db, Fate>, applied: map<Db, seq<seq<Step>>>)
    requires PassLeaves(before, scripted, after, steps, f, ran, fates) && !f.Expired?
    requires Whole(first, before, applied)
    ensures Whole(first, after, Applied(applied, steps, fates))
  {
    PassKeys(before, scripted, after, steps, f, ran, fates);
    forall db | db in first ensures WholeAt(first.Keys, first[db], after[db], Applied(applied, steps, fates)[db], db) {
      AppliedAt(applied, steps, fates, db);
      assert WholeAt(first.Keys, first[db], before[db], applied[db], db);
      PassWholeAt(before, scripted, after, steps, f, ran, fates, db, first.Keys, first[db], applied[db]);
    }
  }

  lemma PassKeys(before: Conns, scripted: Conns, after: Conns, steps: seq<Step>, f: Flow, ran: nat,
                 fates: map<Db, Fate>)
    requires PassLeaves(before, scripted, after, steps, f, ran, fates)
    ensures after.Keys == before.Keys && fates.Keys == before.Keys
  {
  }

  lemma AppliedAt(applied: map<Db, seq<seq<Step>>>, steps: seq<Step>, fates: map<Db, Fate>, db: Db)
    requires db in applied && db in fates
    ensures Applied(applied, steps, fates)[db] == if fates[db].Committed? then applied[db] + [steps] else applied[db]
  {
  }

  lemma PassWholeAt(before: Conns, scripted: Conns, after: Conns, steps: seq<Step>, f: Flow, ran: nat,
                    fates: map<Db, Fate>, db: Db, dbs: set<Db>, first: seq<Sql>, plans: seq<seq<Step>>)
    requires PassLeaves(before, scripted, after, steps, f, ran, fates) && !f.Expired?
    requires dbs == before.Keys && db in dbs && WholeAt(dbs, first, before[db], plans, db)
    ensures db in after && db in fates
    ensures WholeAt(dbs, first, after[db], if fates[db].Committed? then plans + [steps] else plans, db)
  {
    PassAt(before, scripted, after, steps, f, ran, fates, db);
    WholeNext(dbs, first, before[db], after[db], plans, steps, db, fates[db].Committed?);
  }

  lemma WholeNext(dbs: set<Db>, first: seq<Sql>, before: Conn, after: Conn, plans: seq<seq<Step>>, steps: seq<Step>,
                  db: Db, committed: bool)
    requires WholeAt(dbs, first, before, plans, db)
    requires committed ==> after == Conn(before.committed + before.pending + Own(dbs, steps, db), [])
    requires !committed ==> after.committed == before.committed && (after.pending == [] || after == before)
    ensures WholeAt(dbs, first, after, if committed then plans + [steps] else plans, db)
  {
    if committed {
      var earlier, own := Flat(dbs, plans, db), Own(dbs, steps, db);
      assert (plans + [steps])[..|plans|] == plans;
      assert first + earlier + [] + own == first + (earlier + own);
    }
  }

  class Seeder {
    const timeouts: bool
    const recipes: map<string, Recipe>
    const defaultRecipe: string
    var conns: Conns
    var orders: Orders
    ghost const doneBefore: set<Uuid>
    ghost const first: map<Db, seq<Sql>>
    ghost var applied: map<Db, seq<seq<Step>>>  // the executions each database has committed

    constructor (timeouts: bool, recipes: map<string, Recipe>, defaultRecipe: string, conns: Conns, orders: Orders)
      requires None in conns && forall db :: db in conns ==> conns[db].pending == []
      ensures Valid() && this.timeouts == timeouts && this.recipes == recipes && this.defaultRecipe == defaultRecipe
      ensures this.conns == conns && this.orders == orders
      ensures doneBefore == set u | u in orders && orders[u].command.state.DoneCommand?
      ensures first == map db | db in conns :: conns[db].committed
    {
      this.timeouts, this.recipes, this.defaultRecipe := timeouts, recipes, defaultRecipe;
      this.conns, this.orders := conns, orders;
      doneBefore := set u | u in orders && orders[u].command.state.DoneCommand?;
      first := map db | db in conns :: conns[db].committed;
      applied := map db | db in conns :: [];
    }

    function RecipeName(o: Order): string {
      if o.recipe.Some? then o.recipe.value else defaultRecipe
    }

    function PlanOf(o: Order): seq<Step> {
      if RecipeName(o) in recipes then Plan(recipes[RecipeName(o)], o.tenant) else []
    }

    // Every command done here has seeded all its databases.
    ghost predicate DoneSeededIn(orders: Orders, conns: Conns) {
      forall u :: u in orders && u !in doneBefore && orders[u].command.state.DoneCommand? ==>
        RecipeName(orders[u]) in recipes && Seeded(conns, PlanOf(orders[u]))
    }

    // The recipe of a done command, the one it names or else the default one, is known, and every database
    // has executed its part of it, filled in for the tenant, without others in between.
    lemma DoneMeans(u: Uuid, db: Db) returns (a: seq<Sql>, b: seq<Sql>)
      requires Valid() && u in orders && u !in doneBefore && orders[u].command.state.DoneCommand? && db in conns
      ensures var o := orders[u];
              var r := if o.recipe.Some? then o.recipe.value else defaultRecipe;
              && r in recipes
              && conns[db].committed == a + Part(conns.Keys, Plan(recipes[r], o.tenant), db) + b
    {
      a, b := SeededMeans(conns, PlanOf(orders[u]), db);
    }

    ghost predicate Valid()
      reads this
    {
      && None in conns && conns[None].pending == []
      && DoneSeededIn(orders, conns)
      && (!timeouts ==> Whole(first, conns, applied))
    }

    method Pulse() returns (f: Flow)
      ensures f.Next? || f.Killed? || (f.Expired? && timeouts)
    {
      var choice: Flow :| choice.Next? || choice.Killed? || (choice.Expired? && timeouts);
      f := choice;
    }

    // Executes one script in the transaction of its database, which counts as used even if this fails.
    method RunScript(s: Step, used: set<Db>) returns (f: Flow, more: set<Db>, ghost failed: bool)
      requires None in conns
      modifies this`conns
      ensures var home := Home(old(conns).Keys, s.target); more == if home.Some? then used + {home} else used
      ensures conns == if f.Next? then Run(old(conns), s) else old(conns)
      ensures (f.Expired? ==> timeouts) && (f.Raised? <==> failed)
    {
      var home := Home(conns.Keys, s.target);
      more := if home.Some? then used + {home} else used;
      f := Pulse();
      var good: bool :| true;
      failed := f.Next? && !good;
      if f.Next? && !good {
        f := Flow.Raised;
      }
      if f.Next? {
        conns := Run(conns, s);
      }
    }

    method RunScripts(steps: seq<Step>) returns (f: Flow, used: set<Db>, ghost ran: nat, ghost failed: bool)
      requires None in conns
      modifies this`conns
      ensures ran <= |steps| && Running(old(conns), conns, steps[..ran])
      ensures Targets(old(conns).Keys, steps[..ran]) <= used + {None} <= Targets(old(conns).Keys, steps)
      ensures f.Next? ==> ran == |steps|
      ensures (f.Expired? ==> timeouts) && (f.Raised? <==> failed)
    {
      used, ran, f, failed := {}, 0, Next, false;
      ghost var before := conns;
      for i := 0 to |steps|
        invariant f.Next? && !failed && ran == i && Running(before, conns, steps[..i])
        invariant Targets(before.Keys, steps[..i]) == used + {None}
      {
        UsedNext(before.Keys, steps, i, used);
        RunningNext(before, conns, steps[..i], steps[i]);
        assert steps[..i + 1] == steps[..i] + [steps[i]];
        f, used, failed := RunScript(steps[i], used);
        if !f.Next? {
          return;
        }
        ran := i + 1;
      }
      assert steps[..|steps|] == steps;
    }

    method Transfer(count: nat) returns (f: Flow, ghost failed: bool)
      ensures (f.Expired? ==> timeouts) && (f.Raised? <==> failed)
    {
      f, failed := Next, false;
      for i := 0 to count
        invariant f.Next? && !failed
      {
        f := Pulse();
        var good: bool :| true;
        failed := f.Next? && !good;
        if f.Next? && !good {
          f := Flow.Raised;
        }
        if !f.Next? {
          return;
        }
      }
    }

    // Rolls back or commits the default database first, then each used target.
    method Conclude(used: set<Db>, fate: Fate) returns (f: Flow, ghost done: set<Db>)
      requires None in conns && used <= conns.Keys && !fate.Open?
      modifies this`conns
      ensures f.Next? || f.Killed? || (f.Expired? && timeouts)
      ensures done <= used + {None} && (f.Next? ==> done == used + {None}) && (done != {} ==> None in done)
      ensures conns.Keys == old(conns).Keys
      ensures forall db :: db in conns ==> Left(old(conns)[db], conns[db], [], if db in done then fate else Open)
    {
      done := {};
      f := Pulse();
      if !f.Next? {
        return;
      }
      conns, done := conns[None := Ended(conns[None], fate)], {None};
      var todo := used - {None};
      while todo != {}
        invariant f.Next? && todo <= used - {None} && done == used + {None} - todo
        invariant conns.Keys == old(conns).Keys
        invariant forall db :: db in conns ==> Left(old(conns)[db], conns[db], [], if db in done then fate else Open)
        decreases todo
      {
        f := Pulse();
        if !f.Next? {
          return;
        }
        var db :| db in todo;
        conns, done := conns[db := Ended(conns[db], fate)], done + {db};
        todo := todo - {db};
      }
    }

    method Execute(steps: seq<Step>, transfers: nat)
      returns (f: Flow, ghost ran: nat, ghost fates: map<Db, Fate>, ghost failed: bool)
      requires None in conns
      modifies this`conns
      ensures Executed(old(conns), conns, steps, ran, fates)
      ensures Ends(old(conns), steps, f, ran, fates)
      ensures (f.Expired? ==> timeouts) && (f.Raised? ==> failed)
    {
      var used;
      f, used, ran, failed := RunScripts(steps);
      ghost var scripted := conns;
      if f.Next? {
        f, failed := Transfer(transfers);
      }
      ghost var done: set<Db> := {};
      var fate := if f.Raised? then RolledBack else Committed;
      if f.Raised? || f.Next? {
        var g;
        g, done := Conclude(used, fate);
        f := if g.Next? then f else g;
      }
      fates := Fates(conns.Keys, done, fate);
      FatesExecuted(old(conns), scripted, conns, steps, ran, done, fate);
      FatesEnd(old(conns), steps, f, ran, used, done, fate);
    }

    /******* The worker under the queue *******/

    // Loading the recipe may fail; nothing is executed then.
    method Work(u: Uuid) returns (f: Flow, ghost ran: nat, ghost fates: map<Db, Fate>, ghost failed: bool)
      requires None in conns && conns[None].pending == [] && u in orders
      modifies this`conns
      ensures Executed(old(conns), conns, PlanOf(orders[u]), ran, fates)
      ensures Ends(old(conns), PlanOf(orders[u]), f, ran, fates)
      ensures f.Expired? ==> timeouts
      ensures f.Next? ==> RecipeName(orders[u]) in recipes
      ensures f.Raised? ==> failed || RecipeName(orders[u]) !in recipes
    {
      var o := orders[u];
      f := Pulse();
      ran, fates := 0, map db | db in conns :: if db.None? then RolledBack else Open;
      var readable: bool :| true;
      failed := !readable;
      if f.Next? && (RecipeName(o) !in recipes || !readable) {
        f := Flow.Raised;
      }
      if f.Next? {
        f, ran, fates, failed := Execute(PlanOf(o), recipes[RecipeName(o)].transfers);
        if f.Next? {
          var g := Pulse();
          f := g;
        }
      }
    }

    // One pass for the recipe that the command names, or else the default one: a success commits its scripts,
    // filled in for the tenant, each in its database; a failure, which has a cause, commits nothing.
    method Process(u: Uuid)
      returns (ghost f: Flow, ghost ran: nat, ghost fates: map<Db, Fate>, ghost scripted: Conns, ghost failed: bool)
      requires Valid() && u in orders && !orders[u].command.state.DoneCommand?
      modifies this
      ensures Valid() && conns.Keys == old(conns).Keys
      ensures f.Expired? ==> timeouts
      ensures u in orders && orders == old(orders)[u := orders[u]]
      ensures var o, p := old(orders)[u], orders[u];
              && p.tenant == o.tenant && p.recipe == o.recipe && p.command.component == o.command.component
              && p.command.attempts == o.command.attempts + 1 && p.command.maxAttempts == o.command.maxAttempts
              && p.command.createdAt == o.command.createdAt
              && p.command.state == if f.Killed? then o.command.state else if f.Next? then DoneCommand else ErrorCommand
      ensures var o := old(orders)[u];
              var r := if o.recipe.Some? then o.recipe.value else defaultRecipe;
              && (f.Next? ==> r in recipes)
              && (f.Raised? ==> failed || r !in recipes)
              && (r in recipes ==>
                    PassLeaves(old(conns), scripted, conns, Plan(recipes[r], o.tenant), f, ran, fates))
              && forall db :: db in conns ==>
                   && (f.Raised? || r !in recipes ==> conns[db].committed == old(conns)[db].committed)
                   && (f.Next? ==>
                         conns[db] == if db == None || exists d :: d in recipes[r].directives && d.target == db
                                      then Conn(old(conns)[db].committed + old(conns)[db].pending
                                                + Part(conns.Keys, Plan(recipes[r], o.tenant), db), [])
                                      else old(conns)[db])
    {
      f, ran, fates, scripted, failed := Apply(u);
      PassEffect(old(conns), scripted, conns, old(orders)[u], f, ran, fates);
    }

    // Records the execution in the histories of the databases that have committed it.
    method Apply(u: Uuid)
      returns (ghost f: Flow, ghost ran: nat, ghost fates: map<Db, Fate>, ghost scripted: Conns, ghost failed: bool)
      requires Valid() && u in orders && !orders[u].command.state.DoneCommand?
      modifies this
      ensures Valid()
      ensures PassLeaves(old(conns), scripted, conns, PlanOf(old(orders)[u]), f, ran, fates)
      ensures f.Expired? ==> timeouts
      ensures u in orders && orders == old(orders)[u := orders[u]]
      ensures Closed(old(orders)[u], orders[u], f, old(orders)[u].command.attempts + 1)
      ensures f.Next? ==> RecipeName(old(orders)[u]) in recipes
      ensures f.Raised? ==> failed || RecipeName(old(orders)[u]) !in recipes
    {
      f, ran, fates, scripted, failed := Attempt(u);
      KeepsValid(old(conns), scripted, conns, u, old(orders), orders, f, ran, fates);
      applied := Applied(applied, PlanOf(old(orders)[u]), fates);
      if !timeouts {
        PassWhole(first, old(conns), scripted, conns, PlanOf(old(orders)[u]), f, ran, fates, old(applied));
      }
    }

    // The columns of a command after a pass.
    predicate Closed(o: Order, p: Order, f: Flow, attempt: nat) {
      && p.tenant == o.tenant && p.recipe == o.recipe
      && p.command.component == o.command.component && p.command.createdAt == o.command.createdAt
      && p.command.attempts == attempt && p.command.maxAttempts == o.command.maxAttempts
      && p.command.state == if f.Killed? then o.command.state else if f.Next? then DoneCommand else ErrorCommand
    }

    lemma PassEffect(before: Conns, scripted: Conns, after: Conns, o: Order, f: Flow, ran: nat, fates: map<Db, Fate>)
      requires PassLeaves(before, scripted, after, PlanOf(o), f, ran, fates) && before[None].pending == []
      requires f.Next? ==> RecipeName(o) in recipes
      ensures var r := if o.recipe.Some? then o.recipe.value else defaultRecipe;
              && after.Keys == before.Keys
              && forall db :: db in after ==>
                   && (f.Raised? || r !in recipes ==> after[db].committed == before[db].committed)
                   && (f.Next? ==>
                         after[db] == if db == None || exists d :: d in recipes[r].directives && d.target == db
                                      then Conn(before[db].committed + before[db].pending
                                                + Part(after.Keys, Plan(recipes[r], o.tenant), db), [])
                                      else before[db])
    {
      PassKeys(before, scripted, after, PlanOf(o), f, ran, fates);
      forall db | db in after && f.Next?
        ensures after[db] == if db == None || exists d :: d in recipes[RecipeName(o)].directives && d.target == db
                             then Conn(before[db].committed + before[db].pending
                                       + Part(after.Keys, PlanOf(o), db), [])
                             else before[db]
      {
        PassCommits(before, scripted, after, PlanOf(o), ran, fates, db);
        PlanTargets(recipes[RecipeName(o)], o.tenant, db);
      }
      forall db | db in after && (f.Raised? || RecipeName(o) !in recipes)
        ensures after[db].committed == before[db].committed
      {
        if f.Raised? {
          FailedPassChangesNothing(before, scripted, after, PlanOf(o), ran, fates, db);
        } else {
          EmptyPassChangesNothing(before, scripted, after, f, ran, fates, db);
        }
      }
    }

    // The start, the execution and the report are committed on the default connection.
    method Attempt(u: Uuid)
      returns (ghost f: Flow, ghost ran: nat, ghost fates: map<Db, Fate>, ghost scripted: Conns, ghost failed: bool)
      requires None in conns && conns[None].pending == []
      requires u in orders && !orders[u].command.state.DoneCommand?
      modifies this`conns, this`orders
      ensures None in conns && conns[None].pending == []
      ensures PassLeaves(old(conns), scripted, conns, PlanOf(old(orders)[u]), f, ran, fates)
      ensures f.Expired? ==> timeouts
      ensures u in orders && orders == old(orders)[u := orders[u]]
      ensures Closed(old(orders)[u], orders[u], f, old(orders)[u].command.attempts + 1)
      ensures f.Next? ==> RecipeName(old(orders)[u]) in recipes
      ensures f.Raised? ==> failed || RecipeName(old(orders)[u]) !in recipes
    {
      var o := orders[u];
      var attempt := o.command.attempts + 1;
      var startedAt: int :| true;
      StartMeans(o.command, attempt, startedAt);
      orders := orders[u := o.(command := StartUpdate(o.command, attempt, startedAt))];
      assert PlanOf(orders[u]) == PlanOf(o);
      var flow;
      flow, ran, fates, failed := Work(u);
      f, scripted := flow, conns;
      Close(u, flow, o.command.maxAttempts, attempt);
    }

    // Writes and commits the report, unless the process died.
    method Close(u: Uuid, f: Flow, limit: nat, attempt: nat)
      requires None in conns && u in orders && !orders[u].command.state.DoneCommand?
      modifies this`conns, this`orders
      ensures conns == if f.Killed? then Dropped(old(conns)) else old(conns)[None := Ended(old(conns)[None], Committed)]
      ensures u in orders && orders == old(orders)[u := orders[u]]
      ensures f.Killed? ==> orders == old(orders)
      ensures !f.Killed? ==> Closed(old(orders)[u], orders[u], f, attempt)
    {
      if f.Killed? {
        conns := Dropped(conns);
      } else {
        var at: int :| true;
        var outcome := match f case Next => Succeeded case Expired => TimedOut case _ => Outcome.Raised;
        ReportMeans(orders[u].command, limit, attempt, outcome, at);
        orders := orders[u := orders[u].(command := ReportUpdate(orders[u].command, limit, attempt, outcome, at))];
        conns := conns[None := Ended(conns[None], Committed)];
      }
    }

    // The done commands stay seeded, and the one of this pass is if it became done.
    lemma KeepsValid(before: Conns, scripted: Conns, after: Conns, u: Uuid, earlier: Orders, later: Orders,
                     f: Flow, ran: nat, fates: map<Db, Fate>)
      requires u in earlier && u in later && PassLeaves(before, scripted, after, PlanOf(earlier[u]), f, ran, fates)
      requires later == earlier[u := later[u]] && PlanOf(later[u]) == PlanOf(earlier[u])
      requires RecipeName(later[u]) == RecipeName(earlier[u])
      requires later[u].command.state.DoneCommand? ==> f.Next? && RecipeName(earlier[u]) in recipes
      requires DoneSeededIn(earlier, before)
      ensures DoneSeededIn(later, after)
    {
      forall v | v in later && v !in doneBefore && later[v].command.state.DoneCommand?
        ensures RecipeName(later[v]) in recipes && Seeded(after, PlanOf(later[v]))
      {
        if v == u {
          PassSeeds(before, scripted, after, PlanOf(earlier[u]), ran, fates);
        } else {
          PassGrows(before, scripted, after, PlanOf(earlier[u]), f, ran, fates, PlanOf(later[v]));
        }
      }
    }

    method Serve(passes: nat)
      requires Valid()
      modifies this
      ensures Valid()
    {
      for i := 0 to passes
        invariant Valid()
      {
        Arrive();
        var now: int :| true;
        if u :| u in orders && Selected(Commands(orders), {}, COMPONENT, now, u) {
          var f, ran, fates, scripted, failed := Process(u);
        }
      }
    }

    // Others add commands.
    method Arrive()
      requires Valid()
      modifies this`orders
      ensures Valid() && forall u :: u in old(orders) ==> u in orders && orders[u] == old(orders)[u]
    {
      var more: Orders :| forall u :: u in more ==> more[u].command.state.NewCommand?;
      orders := more + orders;
    }
  }
}
