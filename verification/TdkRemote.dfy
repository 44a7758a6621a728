/** Bringing a remote template draft in line with a local project. */
module TdkRemote {
  import opened Common

  type Name = string
  type RemoteId = nat

  datatype Kind = FileKind | AssetKind

  // One file or asset of the draft on the server.
  datatype Entry = Entry(kind: Kind, name: Name, content: string)
  type Draft = map<RemoteId, Entry>

  // A file of the local project; `textual` says whether its content type starts with "text".
  datatype LocalFile = LocalFile(content: string, textual: bool, remoteId: Option<RemoteId>, remoteType: Kind)
  type Files = map<Name, LocalFile>

  function IsText(f: LocalFile): bool {
    f.remoteType == FileKind || f.textual
  }

  // As a file comes from disk: not linked, of the kind its content type suggests.
  predicate Loaded(f: LocalFile) {
    f.remoteId == None && f.remoteType == if f.textual then FileKind else AssetKind
  }

  function UploadKind(f: LocalFile): Kind {
    if IsText(f) then FileKind else AssetKind
  }

  // The local file names a remote entry of its name, kind and content.
  predicate LinkedTo(files: Files, draft: Draft, n: Name, content: string) {
    && n in files && files[n].remoteId.Some? && files[n].remoteId.value in draft
    && var e := draft[files[n].remoteId.value]; e == Entry(files[n].remoteType, n, content)
  }

  ghost predicate NoEntry(draft: Draft, n: Name) {
    forall id :: id in draft ==> draft[id].name != n
  }

  ghost predicate AtMostOne(draft: Draft, n: Name) {
    forall id, other :: id in draft && other in draft && draft[id].name == n && draft[other].name == n ==> id == other
  }

  // Entries whose names are not in `names` are the same.
  ghost predicate SameOutside(before: Draft, after: Draft, names: set<Name>) {
    && (forall id :: id in before && before[id].name !in names ==> id in after && after[id] == before[id])
    && (forall id :: id in after && after[id].name !in names ==> id in before && before[id] == after[id])
  }

  // The draft without the entries of the given names.
  function Others(draft: Draft, names: set<Name>): Draft {
    map id | id in draft && draft[id].name !in names :: draft[id]
  }

  // What was a file already or has a textual content type is a file, anything else an asset.
  ghost predicate StoredFile(n: Name, local: LocalFile, files: Files, draft: Draft) {
    && n in files && files[n].content == local.content
    && files[n].remoteType == (if local.remoteType == FileKind || local.textual then FileKind else AssetKind)
    && LinkedTo(files, draft, n, local.content) && AtMostOne(draft, n)
  }

  // The draft holds every local file once, and besides them what it held before.
  ghost predicate Stored(local: Files, before: Draft, files: Files, after: Draft) {
    && SameOutside(before, after, local.Keys)
    && forall n :: n in local ==> StoredFile(n, local[n], files, after)
  }

  // The entry linked so far already is what the loaded file would be uploaded as.
  predicate CurrentEntry(id: Option<RemoteId>, draft: Draft, n: Name, loaded: LocalFile) {
    id.Some? && id.value in draft && draft[id.value] == Entry(loaded.remoteType, n, loaded.content)
  }

  // Every file of the project has one entry, with its present content, and knows it.
  ghost predicate InStep(files: Files, draft: Draft) {
    forall n :: n in files ==> LinkedTo(files, draft, n, files[n].content) && AtMostOne(draft, n)
  }

  // The project and the draft it is stored in.
  datatype Project = Project(files: Files, draft: Draft)

  // One changed file, as read from disk, and which calls of its update succeeded.
  datatype Change = Change(name: Name, loaded: LocalFile, put: bool, deleted: bool, created: bool)

  // What an update of one file leaves.
  ghost predicate Updates(a: Project, b: Project, c: Change) {
    && SameOutside(a.draft, b.draft, {c.name})
    && (c.put || c.deleted ==> c.name in a.files)
    && c.name in b.files && b.files == a.files[c.name := b.files[c.name]]
    && b.files[c.name].content == c.loaded.content
    && (LinkedTo(b.files, b.draft, c.name, c.loaded.content) <==>
          || c.put || c.created
          || (!c.deleted && c.name in a.files
              && CurrentEntry(a.files[c.name].remoteId, a.draft, c.name, c.loaded)))
    && (AtMostOne(a.draft, c.name) ==>
          (AtMostOne(b.draft, c.name) <==> c.put || !c.created || c.deleted || NoEntry(a.draft, c.name)))
  }

  // From the effect on the draft and the link of the file.
  lemma UpdatesIf(a: Project, b: Project, c: Change, id: Option<RemoteId>, unused: RemoteId)
    requires id == (if c.name in a.files then a.files[c.name].remoteId else None)
    requires c.put || c.deleted ==> c.name in a.files
    requires Updated(a.draft, b.draft, id, unused, Entry(c.loaded.remoteType, c.name, c.loaded.content),
                     c.put, c.deleted, c.created)
    requires unused !in a.draft && (id.Some? && id.value in a.draft ==> a.draft[id.value].name == c.name)
    requires c.name in b.files && b.files == a.files[c.name := b.files[c.name]]
            && b.files[c.name].content == c.loaded.content
    requires LinkedTo(b.files, b.draft, c.name, c.loaded.content) <==>
             c.put || c.created || (!c.deleted && CurrentEntry(id, a.draft, c.name, c.loaded))
    ensures Updates(a, b, c)
  {
    UpdateKeeps(a.draft, b.draft, id, unused, Entry(c.loaded.remoteType, c.name, c.loaded.content),
                c.put, c.deleted, c.created);
  }

  // The content was put, or the entry was deleted, if there was one, and created anew.
  ghost predicate Arrived(a: Project, c: Change) {
    c.put || (c.created && (c.deleted || NoEntry(a.draft, c.name)))
  }

  lemma InStepKept(a: Project, b: Project, c: Change)
    requires Updates(a, b, c) && Arrived(a, c) && InStep(a.files, a.draft)
    ensures InStep(b.files, b.draft)
  {
    assert AtMostOne(a.draft, c.name) by {
      assert c.name in a.files ==> LinkedTo(a.files, a.draft, c.name, a.files[c.name].content);
    }
    forall m | m in b.files ensures LinkedTo(b.files, b.draft, m, b.files[m].content) && AtMostOne(b.draft, m) {
      if m != c.name {
        assert LinkedTo(a.files, a.draft, m, a.files[m].content) && AtMostOne(a.draft, m);
      }
    }
  }

  // The PUT and the DELETE fail and the creation does not: the file has two entries.
  lemma TwoEntries() returns (a: Project, b: Project, c: Change)
    ensures InStep(a.files, a.draft) && Updates(a, b, c)
    ensures c.name in a.files && !c.put && !c.deleted && c.created
    ensures !AtMostOne(b.draft, c.name)
  {
    var n := "a.css";
    var before, after := LocalFile("x", true, Some(0), FileKind), LocalFile("y", true, Some(1), FileKind);
    c := Change(n, LocalFile("y", true, None, FileKind), false, false, true);
    a := Project(map[n := before], map[0 := Entry(FileKind, n, "x")]);
    b := Project(map[n := after], map[0 := Entry(FileKind, n, "x"), 1 := Entry(FileKind, n, "y")]);
    assert b.draft == a.draft[1 := Entry(FileKind, n, "y")];
    UpdatesIf(a, b, c, Some(0), 1);
    assert 0 in b.draft && 1 in b.draft && b.draft[0].name == n && b.draft[1].name == n;
  }

  // The states before, between and after a number of updates.
  ghost predicate UpdateRun(ps: seq<Project>, cs: seq<Change>) {
    |ps| == |cs| + 1 && forall i :: 0 <= i < |cs| ==> Updates(ps[i], ps[i + 1], cs[i])
  }

  lemma UpdateRunNext(ps: seq<Project>, cs: seq<Change>, next: Project, c: Change)
    requires UpdateRun(ps, cs) && Updates(ps[|cs|], next, c)
    ensures UpdateRun(ps + [next], cs + [c])
  {
  }

  // As long as every content arrives, all files of the project stay in step with the draft.
  lemma {:induction false} UpdatesKeepStep(ps: seq<Project>, cs: seq<Change>, n: nat)
    requires UpdateRun(ps, cs) && n <= |cs| && InStep(ps[0].files, ps[0].draft)
    requires forall i :: 0 <= i < n ==> Arrived(ps[i], cs[i])
    ensures InStep(ps[n].files, ps[n].draft)
  {
    if n > 0 {
      UpdatesKeepStep(ps, cs, n - 1);
      var k := n - 1;
      InStepKept(ps[k], ps[k + 1], cs[k]);
    }
  }

  lemma StoredFrom(base: Draft, middle: Draft, local: Files, files: Files, draft: Draft)
    requires SameOutside(base, middle, local.Keys) && Stored(local, middle, files, draft)
    ensures Stored(local, base, files, draft)
  {
  }

  lemma StoredInStep(local: Files, before: Draft, files: Files, draft: Draft)
    requires files.Keys == local.Keys && Stored(local, before, files, draft)
    ensures InStep(files, draft)
  {
    forall n | n in files ensures LinkedTo(files, draft, n, files[n].content) && AtMostOne(draft, n) {
      assert n in local && StoredFile(n, local[n], files, draft);
    }
  }

  // The files outside `todo` are stored, those in it wait and have no entry yet.
  ghost predicate Progress(local: Files, before: Draft, files: Files, draft: Draft, todo: set<Name>) {
    && SameOutside(before, draft, local.Keys)
    && Clear(draft, todo)
    && forall n :: n in local && n !in todo ==> StoredFile(n, local[n], files, draft)
  }

  ghost predicate Waiting(files: Files, local: Files, todo: set<Name>) {
    forall n :: n in todo ==> n in files && n in local && files[n] == local[n]
  }

  ghost predicate Clear(draft: Draft, names: set<Name>) {
    forall n :: n in names ==> NoEntry(draft, n)
  }

  // A new entry changes nothing outside its name, and is the only one of its name if there was none.
  lemma NewEntry(before: Draft, id: RemoteId, e: Entry)
    requires id !in before
    ensures SameOutside(before, before[id := e], {e.name})
    ensures AtMostOne(before[id := e], e.name) <==> NoEntry(before, e.name)
    ensures forall m :: m != e.name && NoEntry(before, m) ==> NoEntry(before[id := e], m)
    ensures forall m :: m != e.name && AtMostOne(before, m) ==> AtMostOne(before[id := e], m)
  {
    var after := before[id := e];
    if AtMostOne(after, e.name) {
      forall other | other in before ensures before[other].name != e.name {
        assert after[other] == before[other] && after[id] == e;
      }
    }
  }

  // What an update of the file named `n` does to the draft `before`, whose entry for it is `id`.
  predicate Updated(before: Draft, draft: Draft, id: Option<RemoteId>, unused: RemoteId, e: Entry,
                    put: bool, deleted: bool, created: bool) {
    && (put || deleted ==> id.Some? && id.value in before)
    && draft ==
       if put then before[id.value := before[id.value].(content := e.content)]
       else
         var rest := if deleted then before - {id.value} else before;
         if created then rest[unused := e] else rest
  }

  lemma UpdateKeeps(before: Draft, draft: Draft, id: Option<RemoteId>, unused: RemoteId, e: Entry,
                    put: bool, deleted: bool, created: bool)
    requires Updated(before, draft, id, unused, e, put, deleted, created)
    requires unused !in before && (id.Some? && id.value in before ==> before[id.value].name == e.name)
    ensures SameOutside(before, draft, {e.name})
    ensures AtMostOne(before, e.name) ==>
              (AtMostOne(draft, e.name) <==> put || !created || deleted || NoEntry(before, e.name))
  {
    if put {
      assert forall k :: k in draft <==> k in before;
      assert forall k :: k in draft ==> draft[k].name == before[k].name;
    } else {
      var rest := if deleted then before - {id.value} else before;
      assert SameOutside(before, rest, {e.name});
      if created {
        NewEntry(rest, unused, e);
        assert deleted && AtMostOne(before, e.name) ==> NoEntry(rest, e.name);
      }
    }
  }

  lemma ProgressStep(local: Files, before: Draft, files: Files, draft: Draft, todo: set<Name>, n: Name, id: RemoteId,
                     f: LocalFile)
    requires todo <= local.Keys && Progress(local, before, files, draft, todo)
    requires n in todo && id !in draft
    requires f.content == local[n].content && f.remoteId == Some(id) && f.remoteType == UploadKind(local[n])
    ensures Progress(local, before, files[n := f], draft[id := Entry(f.remoteType, n, f.content)], todo - {n})
  {
    var e := Entry(f.remoteType, n, f.content);
    NewEntry(draft, id, e);
    forall m | m in local && m !in todo - {n} ensures StoredFile(m, local[m], files[n := f], draft[id := e]) {
      assert m != n ==> StoredFile(m, local[m], files, draft);
    }
  }

  predicate OwnLink(f: LocalFile, n: Name, draft: Draft, next: RemoteId) {
    f.remoteId.Some? ==> f.remoteId.value < next && (f.remoteId.value in draft ==> draft[f.remoteId.value].name == n)
  }

  class Core {
    var files: Files
    var draft: Draft
    var next: RemoteId  // identifiers the server has given out are below it
    var failures: nat   // API calls that did not succeed

    // A local file never names the entry of another file, not even after its own was deleted.
    ghost predicate Valid()
      reads this
    {
      && (forall id :: id in draft ==> id < next)
      && forall n :: n in files ==> OwnLink(files[n], n, draft, next)
    }

    // A freshly loaded project has no links.
    constructor (files: Files, draft: Draft, next: RemoteId)
      requires forall id :: id in draft ==> id < next
      requires forall n :: n in files ==> files[n].remoteId.None?
      ensures Valid() && this.files == files && this.draft == draft && this.next == next && failures == 0
    {
      this.files, this.draft, this.next, this.failures := files, draft, next, 0;
    }

    /******* API calls *******/

    // Any call may fail, and then has no effect on the draft.
    method Attempt() returns (ok: bool)
      modifies this`failures
      ensures failures == old(failures) + if ok then 0 else 1
    {
      ok :| true;
      if !ok {
        failures := failures + 1;
      }
    }

    method Post(n: Name, f: LocalFile) returns (r: Option<LocalFile>)
      modifies this`draft, this`next, this`failures
      ensures failures == old(failures) + if r.Some? then 0 else 1
      ensures r.None? ==> draft == old(draft) && next == old(next)
      ensures r.Some? ==>
                && next == old(next) + 1 && draft == old(draft)[old(next) := Entry(f.remoteType, n, f.content)]
                && r.value.remoteId == Some(old(next))
                && r.value.content == f.content && r.value.remoteType == f.remoteType
    {
      var ok := Attempt();
      if !ok {
        return None;
      }
      var textual: bool :| true;
      r := Some(LocalFile(f.content, textual, Some(next), f.remoteType));
      draft, next := draft[next := Entry(f.remoteType, n, f.content)], next + 1;
    }

    method Put(kind: Kind, n: Name, f: LocalFile) returns (r: Option<LocalFile>)
      modifies this`draft, this`failures
      ensures failures == old(failures) + if r.Some? then 0 else 1
      ensures r.None? ==> draft == old(draft)
      ensures r.Some? ==>
                && f.remoteId.Some? && f.remoteId.value in old(draft) && old(draft)[f.remoteId.value].kind == kind
                && draft == old(draft)[f.remoteId.value := old(draft)[f.remoteId.value].(content := f.content)]
                && r.value.content == f.content && r.value.remoteId == f.remoteId && r.value.remoteType == kind
    {
      var ok := Attempt();
      if !ok {
        return None;
      }
      if f.remoteId.None? || f.remoteId.value !in draft || draft[f.remoteId.value].kind != kind {
        failures := failures + 1;
        return None;
      }
      draft := draft[f.remoteId.value := draft[f.remoteId.value].(content := f.content)];
      var textual: bool :| true;
      r := Some(LocalFile(f.content, textual, f.remoteId, kind));
    }

    method Delete(kind: Kind, id: Option<RemoteId>) returns (ok: bool)
      modifies this`draft, this`failures
      ensures failures == old(failures) + if ok then 0 else 1
      ensures ok ==>
                && id.Some? && id.value in old(draft) && old(draft)[id.value].kind == kind
                && draft == old(draft) - {id.value}
      ensures !ok ==> draft == old(draft)
    {
      ok := Attempt();
      if ok {
        if id.None? || id.value !in draft || draft[id.value].kind != kind {
          failures := failures + 1;
          return false;
        }
        draft := draft - {id.value};
      }
    }

    /******* Storing the whole project *******/

    method CreateTemplateFile(n: Name, f: LocalFile) returns (ok: bool)
      requires Valid()
      modifies this
      ensures Valid() && next >= old(next)
      ensures failures == old(failures) + if ok then 0 else 1
      ensures !ok ==> files == old(files) && draft == old(draft)
      ensures ok ==>
                && n in files && files == old(files)[n := files[n]]
                && files[n].remoteType == f.remoteType && files[n].content == f.content
                && files[n].remoteId == Some(old(next))
                && draft == old(draft)[old(next) := Entry(f.remoteType, n, f.content)]
    {
      var r := Post(n, f);
      ok := r.Some?;
      if ok {
        files := files[n := r.value];
      }
    }

    // Deletes what the fetched listings show under local names.
    method CleanupRemoteFiles(assets: set<RemoteId>, remoteFiles: set<RemoteId>)
      requires Valid()
      requires assets + remoteFiles == draft.Keys && assets !! remoteFiles
      requires forall id :: id in draft ==> draft[id].kind == if id in assets then AssetKind else FileKind
      modifies this`draft, this`failures
      ensures Valid() && failures >= old(failures)
      ensures failures == old(failures) ==> draft == Others(old(draft), files.Keys)
    {
      var before := draft;
      ghost var failed := failures;
      var names := files.Keys;
      while names != {}
        invariant names <= files.Keys && failures >= failed && Valid()
        invariant failures == failed ==> draft == Others(before, files.Keys - names)
        decreases names
      {
        var n :| n in names;
        names := names - {n};
        DeleteNamed(n, assets, AssetKind, before);
        DeleteNamed(n, remoteFiles, FileKind, before);
      }
    }

    method DeleteNamed(n: Name, listing: set<RemoteId>, kind: Kind, before: Draft)
      requires Valid() && listing <= before.Keys
      modifies this`draft, this`failures
      ensures Valid() && failures >= old(failures)
      ensures failures == old(failures) ==>
                draft == old(draft) - (set id | id in listing && before[id].name == n)
    {
      var todo := listing;
      ghost var failed := failures;
      while todo != {}
        invariant todo <= listing && failures >= failed && Valid()
        invariant failures == failed ==>
                    draft == old(draft) - (set id | id in listing && id !in todo && before[id].name == n)
        decreases todo
      {
        var id :| id in todo;
        todo := todo - {id};
        if before[id].name == n {
          var ok := Delete(kind, Some(id));
        }
      }
    }

    method StoreRemoteFiles()
      requires Valid()
      modifies this
      ensures Valid() && failures >= old(failures) && files.Keys == old(files).Keys
      ensures failures == old(failures) && Clear(old(draft), old(files).Keys) ==>
              Stored(old(files), old(draft), files, draft)
    {
      ghost var before, local := draft, files;
      ghost var failed := failures;
      var todo := files.Keys;
      while todo != {}
        invariant Valid() && todo <= files.Keys == local.Keys && failures >= failed
        invariant Waiting(files, local, todo)
        invariant failures == failed && Clear(before, local.Keys) ==> Progress(local, before, files, draft, todo)
        decreases todo
      {
        var n :| n in todo;
        StoreRemoteFile(n, local, before, todo);
        todo := todo - {n};
      }
    }

    method StoreRemoteFile(n: Name, ghost local: Files, ghost before: Draft, ghost todo: set<Name>)
      requires Valid() && n in todo && todo <= files.Keys == local.Keys && Waiting(files, local, todo)
      modifies this
      ensures Valid() && failures >= old(failures) && files.Keys == old(files).Keys
      ensures Waiting(files, local, todo - {n})
      ensures failures == old(failures) && Progress(local, before, old(files), old(draft), todo) ==>
                Progress(local, before, files, draft, todo - {n})
    {
      ghost var reached, entries, id := files, draft, next;
      files := files[n := files[n].(remoteId := None, remoteType := UploadKind(files[n]))];
      var ok := CreateTemplateFile(n, files[n]);
      if ok && Progress(local, before, reached, entries, todo) {
        ProgressStep(local, before, reached, entries, todo, n, id, files[n]);
        assert files == reached[n := files[n]];
      }
    }

    // `found` says whether the server has a draft of this template. If no API call fails, every local
    // file has exactly one remote entry, of its name and content, which it links to; all other entries
    // of an updated draft are untouched, and a draft made anew has no others.
    method StoreRemote(found: bool, force: bool)
      requires Valid() && (found || draft == map[])
      modifies this
      ensures Valid() && failures >= old(failures) && files.Keys == old(files).Keys
      ensures failures == old(failures) ==>
                Stored(old(files), if found && !force then old(draft) else map[], files, draft)
      ensures failures == old(failures) ==> InStep(files, draft)
      ensures failures == old(failures) ==>
                && (forall n :: n in files ==>
                      && files[n].remoteId.Some? && files[n].remoteId.value in draft
                      && draft[files[n].remoteId.value]
                         == Entry(if old(files)[n].remoteType == FileKind || old(files)[n].textual then FileKind
                                  else AssetKind, n, old(files)[n].content))
                && (forall id, other :: id in draft && other in draft && draft[id].name == draft[other].name ==>
                      id == other || draft[id].name !in files)
                && (forall id :: id in draft && draft[id].name !in files ==>
                      found && !force && id in old(draft) && old(draft)[id] == draft[id])
                && (found && !force ==>
                      forall id :: id in old(draft) && old(draft)[id].name !in files ==>
                        id in draft && draft[id] == old(draft)[id])
    {
      var ready := PrepareDraft(found, force);
      if ready {
        ghost var base, middle := if found && !force then old(draft) else map[], draft;
        StoreRemoteFiles();
        if failures == old(failures) {
          StoredFrom(base, middle, old(files), files, draft);
          StoredInStep(old(files), base, files, draft);
          assert forall n :: n in files ==> StoredFile(n, old(files)[n], files, draft);
        }
      }
    }

    // Afterwards the draft, old or new, has no entry under a local name.
    method PrepareDraft(found: bool, force: bool) returns (ready: bool)
      requires Valid() && (found || draft == map[])
      modifies this`draft, this`failures
      ensures Valid() && failures >= old(failures) && (failures == old(failures) ==> ready)
      ensures failures == old(failures) ==>
                && Clear(draft, files.Keys)
                && SameOutside(if found && !force then old(draft) else map[], draft, files.Keys)
    {
      var present := found;
      if present && force {
        var deleted := Attempt();
        if deleted {
          draft, present := map[], false;
        }
      }
      ready := Attempt();
      if ready && present {
        ready := CleanupListed();
      }
    }

    // Fetches what the draft has and cleans it up.
    method CleanupListed() returns (listed: bool)
      requires Valid()
      modifies this`draft, this`failures
      ensures Valid() && failures >= old(failures) && (failures == old(failures) ==> listed)
      ensures failures == old(failures) ==> draft == Others(old(draft), files.Keys)
    {
      listed := Attempt();
      if listed {
        var assets := set id | id in draft && draft[id].kind == AssetKind;
        var remoteFiles := set id | id in draft && draft[id].kind == FileKind;
        assert assets + remoteFiles == draft.Keys;
        CleanupRemoteFiles(assets, remoteFiles);
      }
    }

    /******* Following a change of one file *******/

    // The project already holds the loaded file; `remote` is the one it tracked.
    method UpdateTemplateFile(n: Name, remote: LocalFile, loaded: LocalFile)
      returns (put: bool, deleted: bool, created: bool)
      requires Valid() && n in files && files[n] == loaded && OwnLink(remote, n, draft, next)
      modifies this
      ensures Valid()
      ensures n in files && files == old(files)[n := files[n]] && files[n].content == loaded.content
      ensures Updated(old(draft), draft, remote.remoteId, old(next), Entry(loaded.remoteType, n, loaded.content),
                      put, deleted, created)
      ensures LinkedTo(files, draft, n, loaded.content) <==>
              put || created || (!deleted && CurrentEntry(remote.remoteId, old(draft), n, loaded))
    {
      put, deleted, created := false, false, false;
      files := files[n := loaded.(remoteId := remote.remoteId)];
      var r := Put(remote.remoteType, n, files[n]);
      if r.Some? {
        files := files[n := r.value];
        put := true;
      } else {
        deleted := Delete(remote.remoteType, remote.remoteId);
        created := CreateTemplateFile(n, files[n]);
      }
    }

    ghost function Current(): Project
      reads this
    {
      Project(files, draft)
    }

    // `loaded` is the file as read from disk. If the project tracked it, its entry is updated in place;
    // should that fail, the entry is deleted and a new one created.
    method UpdateFile(n: Name, loaded: LocalFile) returns (put: bool, deleted: bool, created: bool)
      requires Valid() && Loaded(loaded)
      modifies this
      ensures Valid() && Updates(old(Current()), Current(), Change(n, loaded, put, deleted, created))
    {
      put, deleted, created := false, false, false;
      ghost var id := None;
      if n in files {
        var remote := files[n];
        id := remote.remoteId;
        files := files[n := loaded];
        put, deleted, created := UpdateTemplateFile(n, remote, loaded);
      } else {
        files := files[n := loaded];
        created := CreateTemplateFile(n, loaded);
      }
      UpdatesIf(old(Current()), Current(), Change(n, loaded, put, deleted, created), id, old(next));
    }

    // A batch of changed files, one after another. If every content arrives, a project in step stays so.
    method ProcessFileChanges(changes: seq<(Name, LocalFile)>) returns (ghost ps: seq<Project>, ghost cs: seq<Change>)
      requires Valid() && forall i :: 0 <= i < |changes| ==> Loaded(changes[i].1)
      modifies this
      ensures Valid() && UpdateRun(ps, cs) && |cs| == |changes|
      ensures forall i :: 0 <= i < |changes| ==> cs[i].name == changes[i].0 && cs[i].loaded == changes[i].1
      ensures ps[0] == old(Current()) && ps[|cs|] == Current()
      ensures InStep(old(files), old(draft)) && (forall i :: 0 <= i < |cs| ==> Arrived(ps[i], cs[i])) ==>
              InStep(files, draft)
    {
      ps, cs := [Current()], [];
      for k := 0 to |changes|
        invariant Valid() && UpdateRun(ps, cs) && |cs| == k
        invariant forall i :: 0 <= i < k ==> cs[i].name == changes[i].0 && cs[i].loaded == changes[i].1
        invariant ps[0] == old(Current()) && ps[k] == Current()
      {
        var put, deleted, created := UpdateFile(changes[k].0, changes[k].1);
        ghost var c := Change(changes[k].0, changes[k].1, put, deleted, created);
        UpdateRunNext(ps, cs, Current(), c);
        ps, cs := ps + [Current()], cs + [c];
      }
      if InStep(old(files), old(draft)) && forall i :: 0 <= i < |cs| ==> Arrived(ps[i], cs[i]) {
        UpdatesKeepStep(ps, cs, |cs|);
      }
    }
  }
}
