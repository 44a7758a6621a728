/** The on-disk cache of a document template, refreshed from one database snapshot to the next. */
module TemplateCache {
  import opened Common

  type Uuid = string
  type Name = string
  type Content = string

  // A template file, or an asset together with the object storage holds for it at that moment.
  datatype Entry = Entry(name: Name, updatedAt: int, content: Content)
  type Entries = map<Uuid, Entry>

  datatype Snapshot = Snapshot(files: Entries, assets: Entries)

  type Disk = map<Name, Content>

  /******* Assumptions on snapshots *******/

  ghost predicate NamesDistinct(s: Snapshot) {
    && (forall u, v :: u in s.files && v in s.files && s.files[u].name == s.files[v].name ==> u == v)
    && (forall u, v :: u in s.assets && v in s.assets && s.assets[u].name == s.assets[v].name ==> u == v)
    && (forall u, v :: u in s.files && v in s.assets ==> s.files[u].name != s.assets[v].name)
  }

  // An entry whose time stamp did not move did not change.
  ghost predicate StampsTrusted(prev: Entries, next: Entries) {
    forall u :: u in prev && u in next && prev[u].updatedAt == next[u].updatedAt ==> prev[u] == next[u]
  }

  ghost predicate Coherent(prev: Snapshot, next: Snapshot) {
    StampsTrusted(prev.files, next.files) && StampsTrusted(prev.assets, next.assets)
  }

  ghost predicate Named(es: Entries, n: Name) {
    exists u :: u in es && es[u].name == n
  }

  // n is the name of an entry that the new snapshot no longer has.
  ghost predicate Dropped(prev: Entries, next: Entries, n: Name) {
    exists u :: u in prev && u !in next && prev[u].name == n
  }

  /******* Agreement of the disk with a snapshot *******/

  ghost predicate Stored(es: Entries, disk: Disk) {
    forall u :: u in es ==> es[u].name in disk && disk[es[u].name] == es[u].content
  }

  // What is there under an entry's name is right, but it may be missing.
  ghost predicate NotStale(es: Entries, disk: Disk) {
    forall u :: u in es && es[u].name in disk ==> disk[es[u].name] == es[u].content
  }

  // The same for the entries that did not change.
  ghost predicate UnchangedNotStale(prev: Entries, next: Entries, disk: Disk) {
    forall u :: u in prev && u in next && prev[u].updatedAt == next[u].updatedAt && next[u].name in disk ==>
      disk[next[u].name] == next[u].content
  }

  ghost predicate Consistent(s: Snapshot, disk: Disk) {
    NotStale(s.files, disk) && NotStale(s.assets, disk)
  }

  ghost predicate Complete(s: Snapshot, disk: Disk) {
    Stored(s.files, disk) && Stored(s.assets, disk)
  }

  /******* The effect of synchronising one kind of entries *******/

  // Entry by entry, for every name: entries of the new snapshot are stored, the names of dropped ones
  // are gone, everything else is as before.
  ghost predicate Synced(prev: Entries, next: Entries, before: Disk, after: Disk) {
    && Stored(next, after)
    && forall n :: !Named(next, n) ==>
         (n in after <==> n in before && !Dropped(prev, next, n)) && (n in after ==> after[n] == before[n])
  }

  class Template {
    var files: Entries
    var assets: Entries
    var disk: Disk

    constructor (s: Snapshot)
      ensures files == s.files && assets == s.assets && disk == map[]
    {
      files, assets, disk := s.files, s.assets, map[];
    }

    function Current(): Snapshot
      reads this
    {
      Snapshot(files, assets)
    }

    method StoreAll(es: Entries)
      requires forall u, v :: u in es && v in es && es[u].name == es[v].name ==> u == v
      modifies this`disk
      ensures Stored(es, disk)
      ensures forall n :: !Named(es, n) ==> (n in disk <==> n in old(disk)) && (n in disk ==> disk[n] == old(disk)[n])
    {
      var todo := es.Keys;
      while todo != {}
        invariant todo <= es.Keys
        invariant forall u :: u in es && u !in todo ==> es[u].name in disk && disk[es[u].name] == es[u].content
        invariant forall n :: !Named(es, n) ==>
                    (n in disk <==> n in old(disk)) && (n in disk ==> disk[n] == old(disk)[n])
        decreases todo
      {
        var u :| u in todo;
        todo := todo - {u};
        assert Named(es, es[u].name);
        disk := disk[es[u].name := es[u].content];
      }
    }

    // The full rebuild.
    method PrepareFs()
      requires NamesDistinct(Current())
      modifies this`disk
      ensures Complete(Current(), disk)
      ensures forall n :: n in disk ==> Named(files, n) || Named(assets, n)
    {
      disk := map[];
      StoreAll(files);
      ghost var stored := disk;
      StoreAll(assets);
      forall u | u in files ensures files[u].name in disk && disk[files[u].name] == files[u].content {
        assert !Named(assets, files[u].name);
        assert stored[files[u].name] == files[u].content;
      }
    }

    // Deletes, adds and updates the entries of one kind.
    method Sync(prev: Entries, next: Entries)
      requires forall u, v :: u in prev && v in prev && prev[u].name == prev[v].name ==> u == v
      requires forall u, v :: u in next && v in next && next[u].name == next[v].name ==> u == v
      requires UnchangedNotStale(prev, next, disk)
      modifies this`disk
      ensures Synced(prev, next, old(disk), disk)
    {
      var toDel, toAdd, toChk := prev.Keys - next.Keys, next.Keys - prev.Keys, prev.Keys * next.Keys;
      DeleteAll(prev, next, toDel);
      ghost var deleted := disk;
      AddAll(next, toAdd, deleted);
      UpdateAll(prev, next, toChk, deleted);
    }

    method DeleteAll(prev: Entries, ghost next: Entries, toDel: set<Uuid>)
      requires toDel == prev.Keys - next.Keys
      modifies this`disk
      ensures forall n ::
                && (n in disk <==> n in old(disk) && !Dropped(prev, next, n))
                && (n in disk ==> disk[n] == old(disk)[n])
    {
      var todo := toDel;
      while todo != {}
        invariant todo <= toDel
        invariant forall n :: n in disk ==> n in old(disk) && disk[n] == old(disk)[n]
        invariant forall n :: n in old(disk) && !Dropped(prev, next, n) ==> n in disk
        invariant forall u :: u in toDel && u !in todo ==> prev[u].name !in disk
        decreases todo
      {
        var u :| u in todo;
        todo := todo - {u};
        assert Dropped(prev, next, prev[u].name);
        disk := disk - {prev[u].name};
      }
    }

    method AddAll(next: Entries, toAdd: set<Uuid>, ghost base: Disk)
      requires toAdd <= next.Keys && disk == base
      requires forall u, v :: u in next && v in next && next[u].name == next[v].name ==> u == v
      modifies this`disk
      ensures forall u :: u in toAdd ==> next[u].name in disk && disk[next[u].name] == next[u].content
      ensures forall u :: u in next && u !in toAdd ==>
                && (next[u].name in disk <==> next[u].name in base)
                && (next[u].name in disk ==> disk[next[u].name] == base[next[u].name])
      ensures forall n :: !Named(next, n) ==> (n in disk <==> n in base) && (n in disk ==> disk[n] == base[n])
    {
      var todo := toAdd;
      while todo != {}
        invariant todo <= toAdd
        invariant forall u :: u in toAdd && u !in todo ==> next[u].name in disk && disk[next[u].name] == next[u].content
        invariant forall u :: u in next && (u !in toAdd || u in todo) ==>
                    && (next[u].name in disk <==> next[u].name in base)
                    && (next[u].name in disk ==> disk[next[u].name] == base[next[u].name])
        invariant forall n :: !Named(next, n) ==> (n in disk <==> n in base) && (n in disk ==> disk[n] == base[n])
        decreases todo
      {
        var u :| u in todo;
        todo := todo - {u};
        assert Named(next, next[u].name);
        disk := disk[next[u].name := next[u].content];
      }
    }

    // An entry whose time stamp did not move and whose file exists is left alone.
    method UpdateAll(prev: Entries, next: Entries, toChk: set<Uuid>, ghost base: Disk)
      requires toChk == prev.Keys * next.Keys
      requires forall u, v :: u in next && v in next && next[u].name == next[v].name ==> u == v
      requires forall u :: u in next && u !in toChk ==> next[u].name in disk && disk[next[u].name] == next[u].content
      requires forall u :: u in toChk && prev[u].updatedAt == next[u].updatedAt && next[u].name in disk ==>
                 disk[next[u].name] == next[u].content
      requires forall n :: !Named(next, n) ==> (n in disk <==> n in base) && (n in disk ==> disk[n] == base[n])
      modifies this`disk
      ensures Stored(next, disk)
      ensures forall n :: !Named(next, n) ==> (n in disk <==> n in base) && (n in disk ==> disk[n] == base[n])
    {
      var todo := toChk;
      while todo != {}
        invariant todo <= toChk
        invariant forall u :: u in next && u !in todo ==> next[u].name in disk && disk[next[u].name] == next[u].content
        invariant forall u :: u in todo && prev[u].updatedAt == next[u].updatedAt && next[u].name in disk ==>
                    disk[next[u].name] == next[u].content
        invariant forall n :: !Named(next, n) ==> (n in disk <==> n in base) && (n in disk ==> disk[n] == base[n])
        decreases todo
      {
        var u :| u in todo;
        todo := todo - {u};
        if !(prev[u].updatedAt == next[u].updatedAt && next[u].name in disk) {
          assert Named(next, next[u].name);
          disk := disk[next[u].name := next[u].content];
        }
      }
    }

    // Files first, then assets.
    method UpdateTemplate(next: Snapshot)
      requires NamesDistinct(Current()) && NamesDistinct(next) && Coherent(Current(), next)
      requires Consistent(Current(), disk)
      modifies this
      ensures Current() == next
      ensures Refreshed(old(Current()), next, old(disk), disk)
    {
      ghost var previous, before := Current(), disk;
      UnchangedFiles(previous, next, before);
      Sync(files, next.files);
      ghost var middle := disk;
      UnchangedAssets(previous, next, before, middle);
      files := next.files;
      Sync(assets, next.assets);
      assets := next.assets;
      RefreshedFromPhases(previous, next, before, middle, disk);
    }
  }

  type Key = (string, Uuid)  // tenant and template

  class TemplateRegistry {
    var templates: map<Key, Template>

    constructor ()
      ensures templates == map[] && Valid()
    {
      templates := map[];
    }

    ghost predicate Valid()
      reads this, templates.Values
    {
      && (forall k, l :: k in templates && l in templates && k != l ==> templates[k] != templates[l])
      && forall k :: k in templates ==>
           NamesDistinct(templates[k].Current()) && Consistent(templates[k].Current(), templates[k].disk)
    }

    method InitNewTemplate(key: Key, db: Snapshot) returns (t: Template)
      requires Valid() && key !in templates && NamesDistinct(db)
      modifies this
      ensures Valid() && fresh(t) && templates == old(templates)[key := t]
      ensures t.Current() == db && Complete(db, t.disk) && forall n :: n in t.disk ==> InSnapshot(db, n)
    {
      t := new Template(db);
      t.PrepareFs();
      templates := templates[key := t];
    }

    method RefreshTemplate(key: Key, db: Snapshot)
      requires Valid() && key in templates && NamesDistinct(db) && Coherent(templates[key].Current(), db)
      modifies templates[key]
      ensures Valid()
      ensures templates[key].Current() == db
      ensures Refreshed(old(templates[key].Current()), db, old(templates[key].disk), templates[key].disk)
    {
      var t := templates[key];
      ghost var previous, before := t.Current(), t.disk;
      t.UpdateTemplate(db);
      RefreshComplete(previous, db, before, t.disk);
    }

    // Builds the directory of a template seen for the first time, refreshes that of a known one, and
    // touches no other template. Reports a template the database does not have.
    method PrepareTemplate(key: Key, db: Option<Snapshot>) returns (t: Option<Template>)
      requires Valid()
      requires db.Some? ==> NamesDistinct(db.value)
      requires db.Some? && key in templates ==> Coherent(templates[key].Current(), db.value)
      modifies this, if key in templates then {templates[key]} else {}
      ensures Valid() && t.Some? == db.Some?
      ensures db.None? ==> templates == old(templates) && forall k :: k in templates ==> unchanged(templates[k])
      ensures db.Some? ==> t.value.Current() == db.value && templates == old(templates)[key := t.value]
      ensures db.Some? && key !in old(templates) ==>
                && fresh(t.value) && Complete(db.value, t.value.disk)
                && forall n :: n in t.value.disk ==> InSnapshot(db.value, n)
      ensures db.Some? && key in old(templates) ==>
                && t.value == old(templates[key])
                && Refreshed(old(templates[key].Current()), db.value, old(templates[key].disk), t.value.disk)
    {
      if db.None? {
        return None;
      }
      if key in templates {
        RefreshTemplate(key, db.value);
        t := Some(templates[key]);
      } else {
        var added := InitNewTemplate(key, db.value);
        t := Some(added);
      }
    }

    // Files disappear from the directory of a template.
    method Lose(key: Key)
      requires Valid() && key in templates
      modifies templates[key]
      ensures Valid() && templates[key].Current() == old(templates[key].Current())
      ensures PartOf(templates[key].disk, old(templates[key].disk))
    {
      var t := templates[key];
      assert PartOf(t.disk, t.disk);
      var rest: Disk :| PartOf(rest, t.disk);
      ConsistentAfterLoss(t.Current(), rest, t.disk);
      t.disk := rest;
    }

    // Files disappear, and then the template is prepared from the next snapshot.
    method Again(key: Key, next: Snapshot)
      requires Valid() && key in templates && NamesDistinct(next) && Coherent(templates[key].Current(), next)
      modifies this, templates[key]
      ensures Valid() && templates == old(templates) && templates[key].Current() == next
      ensures RefreshStep(old(templates[key].Current()), next, old(templates[key].disk), templates[key].disk)
    {
      ghost var prev, before := templates[key].Current(), templates[key].disk;
      Lose(key);
      ghost var rest := templates[key].disk;
      PrepareKnown(key, next);
      StepByLoss(prev, next, before, rest, templates[key].disk);
    }

    method PrepareKnown(key: Key, next: Snapshot)
      requires Valid() && key in templates && NamesDistinct(next) && Coherent(templates[key].Current(), next)
      modifies this, templates[key]
      ensures Valid() && templates == old(templates) && templates[key].Current() == next
      ensures Refreshed(old(templates[key].Current()), next, old(templates[key].disk), templates[key].disk)
    {
      var t := PrepareTemplate(key, Some(next));
      assert templates == old(templates)[key := t.value];
    }

    method Begin(key: Key, db: Snapshot) returns (ghost disk: Disk)
      requires Valid() && key !in templates && NamesDistinct(db)
      modifies this
      ensures Valid() && key in templates && fresh(templates[key])
      ensures templates[key].Current() == db && templates[key].disk == disk && CacheRun([db], [disk])
    {
      var t := PrepareTemplate(key, Some(db));
      disk := t.value.disk;
      FirstRun(db, disk);
    }

    // A template is prepared again and again, each time from a newer snapshot, while files disappear in
    // between: its disks are a run of the cache.
    method Serve(key: Key, dbs: seq<Snapshot>) returns (ghost disks: seq<Disk>)
      requires Valid() && key !in templates && dbs != [] && History(dbs)
      modifies this
      ensures Valid() && key in templates && CacheRun(dbs, disks)
      ensures templates[key].Current() == dbs[|dbs| - 1] && templates[key].disk == disks[|dbs| - 1]
    {
      HistoryAt(dbs, 0);
      ghost var first := Begin(key, dbs[0]);
      disks := [first];
      assert dbs[..1] == [dbs[0]];
      for i := 1 to |dbs|
        invariant Valid() && key in templates && fresh(templates[key])
        invariant |disks| == i && CacheRun(dbs[..i], disks)
        invariant templates[key].Current() == dbs[i - 1] && templates[key].disk == disks[i - 1]
      {
        HistoryAt(dbs, i);
        Again(key, dbs[i]);
        CacheRunNext(dbs, disks, i, templates[key].disk);
        disks := disks + [templates[key].disk];
      }
      assert dbs[..|dbs|] == dbs;
    }
  }

  lemma UnchangedFiles(prev: Snapshot, next: Snapshot, before: Disk)
    requires Coherent(prev, next) && Consistent(prev, before)
    ensures UnchangedNotStale(prev.files, next.files, before)
  {
    forall u | u in prev.files && u in next.files && prev.files[u].updatedAt == next.files[u].updatedAt
      ensures prev.files[u] == next.files[u]
    {
    }
  }

  // Synchronising the files leaves no stale content under the name of an unchanged asset.
  lemma UnchangedAssets(prev: Snapshot, next: Snapshot, before: Disk, middle: Disk)
    requires NamesDistinct(next) && Coherent(prev, next) && Consistent(prev, before)
    requires Synced(prev.files, next.files, before, middle)
    ensures UnchangedNotStale(prev.assets, next.assets, middle)
  {
    forall u | u in prev.assets && u in next.assets && prev.assets[u].updatedAt == next.assets[u].updatedAt
        && next.assets[u].name in middle
      ensures middle[next.assets[u].name] == next.assets[u].content
    {
      assert prev.assets[u] == next.assets[u];
      assert !Named(next.files, next.assets[u].name);
    }
  }

  /******* The effect of a refresh, name by name *******/

  // Every new asset is stored; a new file is stored unless an asset dropped in this refresh had its
  // name; the names of dropped entries are gone; every other name is as before.
  ghost predicate Refreshed(prev: Snapshot, next: Snapshot, before: Disk, after: Disk) {
    && Stored(next.assets, after)
    && (forall u :: u in next.files ==> StoredUnlessDropped(prev, next, after, u))
    && (forall n :: !Named(next.files, n) && !Named(next.assets, n) ==>
          && (n in after <==>
                n in before && !Dropped(prev.files, next.files, n) && !Dropped(prev.assets, next.assets, n))
          && (n in after ==> after[n] == before[n]))
  }

  ghost predicate StoredUnlessDropped(prev: Snapshot, next: Snapshot, after: Disk, u: Uuid)
    requires u in next.files
  {
    var f := next.files[u];
    && (f.name in after <==> !Dropped(prev.assets, next.assets, f.name))
    && (f.name in after ==> after[f.name] == f.content)
  }

  lemma RefreshedFromPhases(prev: Snapshot, next: Snapshot, before: Disk, middle: Disk, after: Disk)
    requires NamesDistinct(next)
    requires Synced(prev.files, next.files, before, middle) && Synced(prev.assets, next.assets, middle, after)
    ensures Refreshed(prev, next, before, after)
  {
    forall u | u in next.files ensures StoredUnlessDropped(prev, next, after, u) {
      assert !Named(next.assets, next.files[u].name);
    }
  }

  // A refresh agrees with the snapshot wherever it has an entry, and it is complete exactly when no
  // asset it dropped shares its name with a file.
  lemma RefreshComplete(prev: Snapshot, next: Snapshot, before: Disk, after: Disk)
    requires Refreshed(prev, next, before, after)
    ensures Consistent(next, after)
    ensures Complete(next, after) <==>
            forall u :: u in next.files ==> !Dropped(prev.assets, next.assets, next.files[u].name)
  {
    forall u | u in next.files && !Dropped(prev.assets, next.assets, next.files[u].name)
      ensures next.files[u].name in after && after[next.files[u].name] == next.files[u].content
    {
      assert StoredUnlessDropped(prev, next, after, u);
    }
    forall u | u in next.files ensures StoredUnlessDropped(prev, next, after, u) {
    }
  }

  /******* Runs of refreshes *******/

  // Snapshots as they follow each other.
  ghost predicate History(snaps: seq<Snapshot>) {
    && (forall i :: 0 <= i < |snaps| ==> NamesDistinct(snaps[i]))
    && forall i :: 0 <= i < |snaps| - 1 ==> Coherent(snaps[i], snaps[i + 1])
  }

  lemma HistoryAt(snaps: seq<Snapshot>, i: nat)
    requires History(snaps) && i < |snaps|
    ensures NamesDistinct(snaps[i]) && (i > 0 ==> Coherent(snaps[i - 1], snaps[i]))
  {
    assert i > 0 ==> Coherent(snaps[i - 1], snaps[i - 1 + 1]);
  }

  // disks[i] is a possible disk after preparing snaps[0] and refreshing to snaps[1..i]. Between two
  // refreshes files may disappear from the disk.
  ghost predicate CacheRun(snaps: seq<Snapshot>, disks: seq<Disk>) {
    && |snaps| == |disks| > 0 && History(snaps)
    && Complete(snaps[0], disks[0]) && (forall n :: n in disks[0] ==> InSnapshot(snaps[0], n))
    && forall i :: 0 <= i < |snaps| - 1 ==> RefreshStep(snaps[i], snaps[i + 1], disks[i], disks[i + 1])
  }

  lemma FirstRun(s: Snapshot, disk: Disk)
    requires NamesDistinct(s) && Complete(s, disk) && forall n :: n in disk ==> InSnapshot(s, n)
    ensures CacheRun([s], [disk])
  {
  }

  ghost predicate InSnapshot(s: Snapshot, n: Name) {
    Named(s.files, n) || Named(s.assets, n)
  }

  predicate PartOf(some: Disk, all: Disk) {
    forall n :: n in some ==> n in all && some[n] == all[n]
  }

  lemma HistoryPrefix(snaps: seq<Snapshot>, n: nat)
    requires n <= |snaps| && History(snaps)
    ensures History(snaps[..n])
  {
    forall i | 0 <= i < n - 1 ensures Coherent(snaps[..n][i], snaps[..n][i + 1]) {
      HistoryAt(snaps, i + 1);
    }
  }

  lemma CacheRunNext(snaps: seq<Snapshot>, disks: seq<Disk>, n: nat, after: Disk)
    requires 0 < n < |snaps| && |disks| == n && CacheRun(snaps[..n], disks) && History(snaps)
    requires RefreshStep(snaps[n - 1], snaps[n], disks[n - 1], after)
    ensures CacheRun(snaps[..n + 1], disks + [after])
  {
    var all, ds := snaps[..n + 1], disks + [after];
    HistoryPrefix(snaps, n + 1);
    forall i | 0 <= i < n ensures RefreshStep(all[i], all[i + 1], ds[i], ds[i + 1]) {
      if i < n - 1 {
        assert RefreshStep(snaps[..n][i], snaps[..n][i + 1], disks[i], disks[i + 1]);
      }
    }
  }

  lemma StepByLoss(prev: Snapshot, next: Snapshot, before: Disk, rest: Disk, after: Disk)
    requires PartOf(rest, before) && Refreshed(prev, next, rest, after)
    ensures RefreshStep(prev, next, before, after)
  {
  }

  ghost predicate RefreshStep(prev: Snapshot, next: Snapshot, before: Disk, after: Disk) {
    exists rest: Disk :: PartOf(rest, before) && Refreshed(prev, next, rest, after)
  }

  // An asset dropped by refresh i shares its name with a file of the new snapshot.
  ghost predicate Collision(snaps: seq<Snapshot>, i: nat)
    requires 0 < i < |snaps|
  {
    exists u :: u in snaps[i].files && Dropped(snaps[i - 1].assets, snaps[i].assets, snaps[i].files[u].name)
  }

  // After every refresh the cache is what a full rebuild would give, up to left-over files: nothing on
  // disk is stale, everything is there unless that very refresh dropped an asset under a file's name,
  // and every left-over name belonged to some earlier snapshot.
  lemma {:induction false} CacheRefinesRebuild(snaps: seq<Snapshot>, disks: seq<Disk>, i: nat)
    requires CacheRun(snaps, disks) && i < |snaps|
    ensures Consistent(snaps[i], disks[i])
    ensures Complete(snaps[i], disks[i]) <==> i == 0 || !Collision(snaps, i)
    ensures forall n :: n in disks[i] ==> exists j :: 0 <= j <= i && InSnapshot(snaps[j], n)
  {
    if i > 0 {
      CacheRefinesRebuild(snaps, disks, i - 1);
      var k := i - 1;
      assert RefreshStep(snaps[k], snaps[k + 1], disks[k], disks[k + 1]);
      var rest: Disk :| PartOf(rest, disks[k]) && Refreshed(snaps[k], snaps[i], rest, disks[i]);
      RefreshComplete(snaps[k], snaps[i], rest, disks[i]);
      forall n | n in disks[i] ensures exists j :: 0 <= j <= i && InSnapshot(snaps[j], n) {
        if !InSnapshot(snaps[i], n) {
          assert n in rest && n in disks[k];
          var j :| 0 <= j <= k && InSnapshot(snaps[j], n);
        }
      }
    }
  }

  // A loss is repaired by the next refresh if the snapshot is still the same.
  lemma NextRefreshRepairs(snaps: seq<Snapshot>, disks: seq<Disk>, i: nat)
    requires CacheRun(snaps, disks) && 0 < i < |snaps| && snaps[i] == snaps[i - 1]
    ensures Complete(snaps[i], disks[i])
  {
    CacheRefinesRebuild(snaps, disks, i);
  }

  // The state a refresh starts from always meets what UpdateTemplate asks of the disk.
  lemma ConsistentAfterLoss(s: Snapshot, some: Disk, all: Disk)
    requires Consistent(s, all) && PartOf(some, all)
    ensures Consistent(s, some)
  {
  }

  // Why the collision matters: any asset replaced by a file of the same name takes it along.
  lemma CollisionLosesFile(a: Uuid, f: Uuid, e: Entry) returns (snaps: seq<Snapshot>, disks: seq<Disk>)
    ensures CacheRun(snaps, disks) && |snaps| == 2 && !Complete(snaps[1], disks[1])
  {
    var first, second := Snapshot(map[], map[a := e]), Snapshot(map[f := e], map[]);
    var before: Disk := map[e.name := e.content];
    snaps, disks := [first, second], [before] + [map[]];
    LossyRefresh(first, second, a, f, e);
    FirstRun(first, before);
    StepByLoss(first, second, before, before, map[]);
    assert snaps[..1] == [first] && snaps[..2] == snaps && History(snaps);
    CacheRunNext(snaps, [before], 1, map[]);
  }

  lemma LossyRefresh(first: Snapshot, second: Snapshot, a: Uuid, f: Uuid, e: Entry)
    requires first == Snapshot(map[], map[a := e]) && second == Snapshot(map[f := e], map[])
    ensures NamesDistinct(first) && NamesDistinct(second) && Coherent(first, second)
    ensures Complete(first, map[e.name := e.content]) && InSnapshot(first, e.name)
    ensures Refreshed(first, second, map[e.name := e.content], map[]) && !Complete(second, map[])
  {
    assert first.assets[a].name == e.name && Named(first.assets, e.name);
    assert Dropped(first.assets, second.assets, first.assets[a].name);
    assert Named(second.files, second.files[f].name);
    assert StoredUnlessDropped(first, second, map[], f);
    assert f in second.files;
  }
}
