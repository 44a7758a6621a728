/** The script list of a seed recipe, as read from its file. */
module SeedRecipes {
  import opened Common

  /******* Recipes *******/

  // A script of the recipe file, with the database it asks for.
  datatype ScriptEntry = ScriptEntry(path: string, target: Option<string>)

  datatype Directive = Directive(path: string, target: Option<string>, order: nat)

  function Target(t: Option<string>): string {
    if t.Some? then t.value else "None"
  }

  function Id(d: Directive): string {
    Decimal(d.order) + "::" + d.path + "::" + Target(d.target)
  }

  // The files an entry stands for. `glob` answers patterns with sorted, hence distinct, paths.
  function Files(e: ScriptEntry, root: string, glob: map<string, seq<string>>): seq<string> {
    if e.path == "" then []
    else if '*' in e.path then (if e.path in glob then glob[e.path] else [])
    else if e.path[0] == '/' then [e.path]
    else [root + "/" + e.path]
  }

  function Located(files: seq<string>, target: Option<string>, order: nat): seq<Directive> {
    seq(|files|, i requires 0 <= i < |files| => Directive(files[i], target, order))
  }

  function Directives(entries: seq<ScriptEntry>, root: string, glob: map<string, seq<string>>): seq<Directive> {
    if entries == [] then []
    else
      var n := |entries| - 1;
      Directives(entries[..n], root, glob) + Located(Files(entries[n], root, glob), entries[n].target, n)
  }

  // A file that the path of an entry stands for: one that the pattern matches, the absolute path itself, or
  // the path below the root.
  predicate StandsFor(path: string, file: string, root: string, glob: map<string, seq<string>>) {
    || (exists i :: 0 <= i < |path| && path[i] == '*' && path in glob && file in glob[path])
    || (file == path && "/" <= path && forall i :: 0 <= i < |path| ==> path[i] != '*')
    || (file == root + "/" + path && path != "" && path[0] != '/' && forall i :: 0 <= i < |path| ==> path[i] != '*')
  }

  // The directives are exactly the files of the entries, each with the target and the number of its entry.
  lemma {:induction false} DirectivesMean(entries: seq<ScriptEntry>, root: string, glob: map<string, seq<string>>,
                                          d: Directive)
    ensures d in Directives(entries, root, glob) <==>
            && d.order < |entries| && d.target == entries[d.order].target
            && StandsFor(entries[d.order].path, d.path, root, glob)
  {
    if entries != [] {
      var n := |entries| - 1;
      var files := Files(entries[n], root, glob);
      DirectivesMean(entries[..n], root, glob, d);
      OrdersBelow(entries[..n], root, glob);
      FilesMean(entries[n], d.path, root, glob);
      LocatedMeans(files, entries[n].target, n, d);
    }
  }

  lemma FilesMean(e: ScriptEntry, file: string, root: string, glob: map<string, seq<string>>)
    ensures file in Files(e, root, glob) <==> StandsFor(e.path, file, root, glob)
  {
  }

  lemma LocatedMeans(files: seq<string>, target: Option<string>, order: nat, d: Directive)
    ensures d in Located(files, target, order) <==> d.path in files && d.target == target && d.order == order
  {
    if d.path in files && d.target == target && d.order == order {
      var i :| 0 <= i < |files| && files[i] == d.path;
      assert Located(files, target, order)[i] == d;
    }
  }

  ghost predicate Distinct<T(!new)>(s: seq<T>) {
    forall i, j :: 0 <= i < j < |s| ==> s[i] != s[j]
  }

  ghost predicate DistinctGlobs(glob: map<string, seq<string>>) {
    forall p :: p in glob ==> Distinct(glob[p])
  }

  // An ordered dictionary with the given directives, in order, under their identifiers.
  ghost predicate Lists(ids: seq<string>, scripts: map<string, Directive>, ds: seq<Directive>) {
    && |ids| == |ds| && Distinct(ids)
    && (forall i :: 0 <= i < |ids| ==> ids[i] == Id(ds[i]) && ids[i] in scripts && scripts[ids[i]] == ds[i])
    && forall id :: id in scripts ==> id in ids
  }

  lemma {:induction false} DigitsEnd(a: string, b: string, s: string, t: string)
    requires forall i :: 0 <= i < |a| ==> '0' <= a[i] <= '9'
    requires forall i :: 0 <= i < |b| ==> '0' <= b[i] <= '9'
    requires a + ":" + s == b + ":" + t
    ensures a == b && s == t
  {
    var x, y := a + ":" + s, b + ":" + t;
    assert x[|a|] == ':' && y[|b|] == ':';
    assert forall i :: 0 <= i < |a| ==> x[i] == a[i];
    assert forall i :: 0 <= i < |b| ==> x[i] == b[i];
    assert a == x[..|a|] && b == y[..|b|];
    assert s == x[|a| + 1..] && t == y[|b| + 1..];
  }

  function PathPart(d: Directive): string {
    (":" + d.path) + ("::" + Target(d.target))
  }

  lemma IdParts(d: Directive)
    ensures Id(d) == Decimal(d.order) + ":" + PathPart(d)
  {
    assert "::" == ":" + ":";
  }

  // Identifiers of directives tell their order, and those of one entry their paths.
  lemma IdDetermines(d: Directive, e: Directive)
    requires Id(d) == Id(e)
    ensures d.order == e.order
    ensures d.target == e.target ==> d == e
  {
    IdParts(d);
    IdParts(e);
    DigitsEnd(Decimal(d.order), Decimal(e.order), PathPart(d), PathPart(e));
    DecimalInjective(d.order, e.order);
    if d.target == e.target {
      SameEnd(":" + d.path, ":" + e.path, "::" + Target(d.target));
      assert (":" + d.path)[1..] == d.path && (":" + e.path)[1..] == e.path;
    }
  }

  lemma SameEnd(a: string, b: string, end: string)
    requires a + end == b + end
    ensures a == b
  {
    assert |a| + |end| == |b| + |end|;
    assert (a + end)[..|a|] == a && (b + end)[..|b|] == b;
  }

  lemma {:induction false} OrdersBelow(entries: seq<ScriptEntry>, root: string, glob: map<string, seq<string>>)
    ensures forall d :: d in Directives(entries, root, glob) ==> d.order < |entries|
  {
    if entries != [] {
      OrdersBelow(entries[..|entries| - 1], root, glob);
    }
  }

  // Fills the ordered dictionary entry by entry; no directive replaces another.
  method FromDict(entries: seq<ScriptEntry>, root: string, glob: map<string, seq<string>>)
    returns (ids: seq<string>, scripts: map<string, Directive>)
    requires DistinctGlobs(glob)
    ensures Lists(ids, scripts, Directives(entries, root, glob))
  {
    ids, scripts := [], map[];
    for index := 0 to |entries|
      invariant Lists(ids, scripts, Directives(entries[..index], root, glob))
    {
      OrdersBelow(entries[..index], root, glob);
      assert entries[..index + 1][..index] == entries[..index];
      ids, scripts := AddFiles(ids, scripts, Directives(entries[..index], root, glob),
                               Files(entries[index], root, glob), entries[index].target, index);
    }
    assert entries[..|entries|] == entries;
  }

  method AddFiles(ids0: seq<string>, scripts0: map<string, Directive>, ghost done: seq<Directive>,
                  files: seq<string>, target: Option<string>, index: nat)
    returns (ids: seq<string>, scripts: map<string, Directive>)
    requires Lists(ids0, scripts0, done) && Distinct(files)
    requires forall d :: d in done ==> d.order < index
    ensures Lists(ids, scripts, done + Located(files, target, index))
  {
    ids, scripts := ids0, scripts0;
    ghost var more := Located(files, target, index);
    assert done + more[..0] == done;
    for k := 0 to |files|
      invariant Lists(ids, scripts, done + more[..k])
    {
      var d := Directive(files[k], target, index);
      NextFile(files, target, index, k);
      ListsNext(ids, scripts, done, more[..k], d);
      assert done + more[..k + 1] == done + more[..k] + [d];
      ids, scripts := if Id(d) in ids then ids else ids + [Id(d)], scripts[Id(d) := d];
    }
    assert more[..|files|] == more;
  }

  lemma NextFile(files: seq<string>, target: Option<string>, index: nat, k: nat)
    requires k < |files| && Distinct(files)
    ensures var more, d := Located(files, target, index), Directive(files[k], target, index);
            && more[..k + 1] == more[..k] + [d]
            && forall e :: e in more[..k] ==> e.target == d.target && e != d
  {
  }

  lemma ListsNext(ids: seq<string>, scripts: map<string, Directive>, done: seq<Directive>, more: seq<Directive>,
                  d: Directive)
    requires Lists(ids, scripts, done + more)
    requires forall e :: e in done ==> e.order != d.order
    requires forall e :: e in more ==> e.target == d.target && e != d
    ensures Id(d) !in ids && Lists(ids + [Id(d)], scripts[Id(d) := d], done + more + [d])
  {
    var ds := done + more;
    forall i | 0 <= i < |ids| ensures ids[i] != Id(d) {
      assert if i < |done| then ds[i] in done else ds[i] in more;
      if ids[i] == Id(d) {
        IdDetermines(ds[i], d);
      }
    }
  }

  // Goes through the ordered dictionary.
  method InOrder(ids: seq<string>, scripts: map<string, Directive>, ghost ds: seq<Directive>)
    returns (directives: seq<Directive>)
    requires Lists(ids, scripts, ds)
    ensures directives == ds
  {
    directives := [];
    for i := 0 to |ids|
      invariant directives == ds[..i]
    {
      directives := directives + [scripts[ids[i]]];
    }
  }
}
