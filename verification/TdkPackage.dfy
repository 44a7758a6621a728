/** Packing a template project into an archive and unpacking it again. */
module TdkPackage {
  import opened Common
  import opened TdkDescriptor

  // Files hold raw content, or the JSON text of a value.
  datatype Content = Raw(text: string) | Encoded(json: Json)

  // A directory, by relative path.
  type Tree = map<string, Content>

  // An archive: its template/template.json, and what is below template/assets by path relative to that.
  datatype Package = Package(descriptor: Option<Json>, assets: map<string, string>)

  // A file of the project; text files are packed into the descriptor, others are assets of their own.
  datatype ProjectFile = ProjectFile(content: string, textual: bool, contentType: string)
  type ProjectFiles = map<string, ProjectFile>

  const TEMPLATE_FILE: string := "template.json"

  /******* Line ends *******/

  // Replaces CRLF by LF, from left to right.
  function Unix(s: string): string {
    if |s| < 2 then s
    else if s[0] == '\r' && s[1] == '\n' then ['\n'] + Unix(s[2..])
    else [s[0]] + Unix(s[1..])
  }

  predicate HasCrlf(s: string) {
    |s| >= 2 && ((s[0] == '\r' && s[1] == '\n') || HasCrlf(s[1..]))
  }

  // Text survives exactly if it has no CRLF.
  lemma {:induction false} UnixIdentity(s: string)
    ensures |Unix(s)| <= |s|
    ensures Unix(s) == s <==> !HasCrlf(s)
  {
    if |s| >= 2 {
      if s[0] == '\r' && s[1] == '\n' {
        UnixIdentity(s[2..]);
      } else {
        UnixIdentity(s[1..]);
        assert ([s[0]] + Unix(s[1..]))[1..] == Unix(s[1..]);
        assert [s[0]] + s[1..] == s;
      }
    }
  }

  // The first CRLF becomes a line feed, and so on with the rest.
  lemma {:induction false} UnixFirst(a: string, b: string)
    requires !HasCrlf(a)
    ensures Unix(a + "\r\n" + b) == a + "\n" + Unix(b)
  {
    var s := a + "\r\n" + b;
    if a == "" {
      assert s[2..] == b;
    } else {
      assert !HasCrlf(a[1..]);
      UnixFirst(a[1..], b);
      assert s[1..] == a[1..] + "\r\n" + b && !(s[0] == '\r' && s[1] == '\n');
      assert Unix(s) == [a[0]] + Unix(s[1..]);
      InFront(a, "\n", Unix(b));
    }
  }

  lemma InFront(a: string, end: string, rest: string)
    requires a != ""
    ensures [a[0]] + (a[1..] + end + rest) == a + end + rest
  {
  }

  // CR CR LF occurs.
  predicate HasCrCrlf(s: string) {
    |s| >= 3 && ((s[0] == '\r' && s[1] == '\r' && s[2] == '\n') || HasCrCrlf(s[1..]))
  }

  // The replacement leaves a CRLF exactly where there was a CR in front of one.
  lemma {:induction false} UnixLeavesCrlf(s: string)
    ensures HasCrlf(Unix(s)) <==> HasCrCrlf(s)
    ensures |s| >= 1 ==> |Unix(s)| >= 1
    ensures |s| >= 1 ==> Unix(s)[0] == if |s| >= 2 && s[0] == '\r' && s[1] == '\n' then '\n' else s[0]
  {
    if |s| >= 2 {
      if s[0] == '\r' && s[1] == '\n' {
        UnixLeavesCrlf(s[2..]);
        assert (['\n'] + Unix(s[2..]))[1..] == Unix(s[2..]);
        assert s[1..][1..] == s[2..];
      } else {
        UnixLeavesCrlf(s[1..]);
        assert ([s[0]] + Unix(s[1..]))[1..] == Unix(s[1..]);
      }
    }
  }

  // A second replacement changes nothing, and so a second round trip, exactly if no CR stood before a CRLF.
  lemma {:induction false} UnixTwice(s: string)
    ensures Unix(Unix(s)) == Unix(s) <==> !HasCrCrlf(s)
  {
    UnixIdentity(Unix(s));
    UnixLeavesCrlf(s);
  }

  lemma UnixTwiceFails()
    ensures HasCrCrlf("\r\r\n") && Unix("\r\r\n") == "\r\n" && Unix(Unix("\r\r\n")) == "\n"
  {
    var s := "\r\r\n";
    assert s[1..] == "\r\n" && "\r\n"[2..] == "";
    assert Unix("\r\n") == ['\n'] + Unix("");
    assert Unix(s) == ['\r'] + Unix(s[1..]);
  }

  /******* Packing *******/

  function FileJson(uuid: string, name: string, content: string): Json {
    JObj(map["uuid" := JStr(uuid), "content" := JStr(content), "fileName" := JStr(name)])
  }

  function AssetJson(uuid: string, name: string, contentType: string): Json {
    JObj(map["uuid" := JStr(uuid), "contentType" := JStr(contentType), "fileName" := JStr(name)])
  }

  // The items describe exactly the text files among `names`.
  ghost predicate FileItems(items: seq<Json>, uuids: seq<string>, names: seq<string>, files: ProjectFiles) {
    && |items| == |names| == |uuids|
    && (forall i :: 0 <= i < |names| ==>
         names[i] in files && items[i] == JObj(map["uuid" := JStr(uuids[i]), "fileName" := JStr(names[i]),
                                                    "content" := JStr(files[names[i]].content)]))
    && forall i, j :: 0 <= i < j < |names| ==> names[i] != names[j]
  }

  // The items describe the assets among `names`, whose contents are not in the descriptor.
  ghost predicate AssetItems(items: seq<Json>, uuids: seq<string>, names: seq<string>, files: ProjectFiles) {
    && |items| == |names| == |uuids|
    && (forall i :: 0 <= i < |names| ==>
         names[i] in files && items[i] == JObj(map["uuid" := JStr(uuids[i]), "fileName" := JStr(names[i]),
                                                    "contentType" := JStr(files[names[i]].contentType)]))
    && forall i, j :: 0 <= i < j < |names| ==> names[i] != names[j]
  }

  lemma AssetItemsNext(items: seq<Json>, uuids: seq<string>, names: seq<string>, files: ProjectFiles, n: string,
                       uuid: string)
    requires AssetItems(items, uuids, names, files) && n in files && n !in names
    ensures AssetItems(items + [AssetJson(uuid, n, files[n].contentType)], uuids + [uuid], names + [n], files)
    ensures (set m | m in names + [n]) == (set m | m in names) + {n}
  {
  }

  lemma FileItemsNext(items: seq<Json>, uuids: seq<string>, names: seq<string>, files: ProjectFiles, n: string,
                      uuid: string)
    requires FileItems(items, uuids, names, files) && n in files && n !in names
    ensures FileItems(items + [FileJson(uuid, n, files[n].content)], uuids + [uuid], names + [n], files)
    ensures (set m | m in names + [n]) == (set m | m in names) + {n}
  {
  }

  function Texts(files: ProjectFiles): set<string> {
    set n | n in files && files[n].textual
  }

  function Assets(files: ProjectFiles): map<string, string> {
    map n | n in files && !files[n].textual :: files[n].content
  }

  // What is written for the files of one kind: their items, with the identifiers made up for them.
  datatype Listed = Listed(items: seq<Json>, uuids: seq<string>, names: seq<string>)

  // An archive of the project: every text file and every asset is listed once, the contents of assets are
  // packed under their names, and both time stamps are the present one.
  ghost predicate PackedAs(pkg: Package, t: Template, files: ProjectFiles, texts: Listed, assets: Listed, now: string) {
    && FileItems(texts.items, texts.uuids, texts.names, files) && (set n | n in texts.names) == Texts(files)
    && AssetItems(assets.items, assets.uuids, assets.names, files) && (set n | n in assets.names) == Assets(files).Keys
    && pkg.assets == Assets(files)
    && pkg.descriptor == Some(JObj(PackageJson(t) + map["files" := JArr(texts.items), "assets" := JArr(assets.items),
                                                        "createdAt" := JStr(now), "updatedAt" := JStr(now)]))
  }

  ghost predicate IsPackage(pkg: Package, t: Template, files: ProjectFiles, now: string) {
    exists texts, assets :: PackedAs(pkg, t, files, texts, assets, now)
  }

  method CreatePackage(t: Template, files: ProjectFiles, now: string) returns (pkg: Package)
    ensures IsPackage(pkg, t, files, now)
  {
    var texts, assets, packed := PackFiles(files);
    var added := map["files" := JArr(texts.items), "assets" := JArr(assets.items), "createdAt" := JStr(now),
                     "updatedAt" := JStr(now)];
    pkg := Package(Some(JObj(PackageJson(t) + added)), packed);
    assert PackedAs(pkg, t, files, texts, assets, now);
  }

  method PackFiles(files: ProjectFiles) returns (texts: Listed, assets: Listed, packed: map<string, string>)
    ensures FileItems(texts.items, texts.uuids, texts.names, files) && (set n | n in texts.names) == Texts(files)
    ensures AssetItems(assets.items, assets.uuids, assets.names, files)
    ensures (set n | n in assets.names) == Assets(files).Keys && packed == Assets(files)
  {
    texts, assets, packed := Listed([], [], []), Listed([], [], []), map[];
    var todo := files.Keys;
    while todo != {}
      invariant todo <= files.Keys
      invariant FileItems(texts.items, texts.uuids, texts.names, files)
      invariant AssetItems(assets.items, assets.uuids, assets.names, files)
      invariant (set n | n in texts.names) == Texts(files - todo) && packed == Assets(files - todo)
      invariant (set n | n in assets.names) == packed.Keys
      decreases todo
    {
      var n :| n in todo;
      var file := files[n];
      var uuid: string :| true;
      PackedNext(files, todo, n);
      if file.textual {
        FileItemsNext(texts.items, texts.uuids, texts.names, files, n, uuid);
        texts := Append(texts, FileJson(uuid, n, file.content), uuid, n);
      } else {
        AssetItemsNext(assets.items, assets.uuids, assets.names, files, n, uuid);
        assets := Append(assets, AssetJson(uuid, n, file.contentType), uuid, n);
        packed := packed[n := file.content];
      }
      todo := todo - {n};
    }
    assert files - {} == files;
  }

  function Append(l: Listed, item: Json, uuid: string, name: string): Listed {
    Listed(l.items + [item], l.uuids + [uuid], l.names + [name])
  }

  lemma PackedNext(files: ProjectFiles, todo: set<string>, n: string)
    requires n in todo && todo <= files.Keys
    ensures n !in Texts(files - todo) && n !in Assets(files - todo)
    ensures Texts(files - (todo - {n})) == Texts(files - todo) + if files[n].textual then {n} else {}
    ensures Assets(files - (todo - {n}))
            == if files[n].textual then Assets(files - todo) else Assets(files - todo)[n := files[n].content]
  {
  }

  /******* Unpacking *******/

  predicate IsFileItem(item: Json) {
    && item.JObj? && "fileName" in item.fields && item.fields["fileName"].JStr?
    && "content" in item.fields && item.fields["content"].JStr?
  }

  // The text files of a descriptor; of several with one name the last is kept.
  function TextFiles(items: seq<Json>): Result<map<string, string>, Error> {
    if items == [] then Ok(map[])
    else
      var item := items[|items| - 1];
      match TextFiles(items[..|items| - 1])
      case Err(e) => Err(e)
      case Ok(m) =>
        if IsFileItem(item) then Ok(m[item.fields["fileName"].s := Unix(item.fields["content"].s)]) else Err(Malformed)
  }

  // Well-formed items give one text for each name, that of the last item of the name, with LF line ends.
  lemma {:induction false} TextFilesMean(items: seq<Json>, n: string) returns (k: Option<nat>)
    ensures TextFiles(items).Ok? <==> forall i :: 0 <= i < |items| ==> IsFileItem(items[i])
    ensures TextFiles(items).Err? ==> TextFiles(items).error == Malformed
    ensures TextFiles(items).Ok? ==>
              match k
              case None =>
                n !in TextFiles(items).value && forall i :: 0 <= i < |items| ==> items[i].fields["fileName"] != JStr(n)
              case Some(last) =>
                && last < |items| && items[last].fields["fileName"] == JStr(n)
                && (forall i :: last < i < |items| ==> items[i].fields["fileName"] != JStr(n))
                && n in TextFiles(items).value
                && TextFiles(items).value[n] == Unix(items[last].fields["content"].s)
  {
    if items == [] {
      k := None;
    } else {
      var last := |items| - 1;
      k := TextFilesMean(items[..last], n);
      assert items == items[..last] + [items[last]];
      if IsFileItem(items[last]) && items[last].fields["fileName"] == JStr(n) {
        k := Some(last);
      }
    }
  }

  // The directory made of any archive: a new descriptor and the readme, the assets over them, and over those
  // the texts of the items.
  lemma ExtractedParts(pkg: Package, present: bool, force: bool)
    returns (descriptor: Json, items: seq<Json>, texts: map<string, string>)
    requires Extracted(pkg, present, force).Ok?
    ensures var data := pkg.descriptor.value.fields;
            && "readme" in data && data["readme"].JStr? && TextFiles(items) == Ok(texts)
            && (items != [] ==> "files" in data && data["files"] == JArr(items))
            && Extracted(pkg, present, force).value
               == map[TEMPLATE_FILE := Encoded(descriptor), DEFAULT_README := Raw(Unix(data["readme"].s))]
                  + (AsRaw(pkg.assets) + AsRaw(texts))
  {
    var data := pkg.descriptor.value.fields;
    var (t, c) := LoadLocal(data).value;
    descriptor := JObj(LocalNewJson(t, NewConfig(c)));
    items := Elements(Get(data, "files", JArr([]))).value;
    texts := TextFiles(items).value;
  }

  // In such a directory a name has the text of the last item of the name, or else the asset, or else what
  // every new project has.
  lemma DirectoryMeans(descriptor: Json, readme: string, assets: map<string, string>, items: seq<Json>,
                       texts: map<string, string>, n: string) returns (k: Option<nat>)
    requires TextFiles(items) == Ok(texts)
    ensures var dir := map[TEMPLATE_FILE := Encoded(descriptor), DEFAULT_README := Raw(readme)]
                       + (AsRaw(assets) + AsRaw(texts));
            match k
            case Some(last) =>
              && last < |items| && IsFileItem(items[last]) && items[last].fields["fileName"] == JStr(n)
              && (forall i :: last < i < |items| ==> IsFileItem(items[i]) && items[i].fields["fileName"] != JStr(n))
              && n in dir && dir[n] == Raw(Unix(items[last].fields["content"].s))
            case None =>
              && (forall i :: 0 <= i < |items| ==> IsFileItem(items[i]) && items[i].fields["fileName"] != JStr(n))
              && if n in assets then n in dir && dir[n] == Raw(assets[n])
                 else if n == "template.json" then n in dir && dir[n] == Encoded(descriptor)
                 else if n == "README.md" then n in dir && dir[n] == Raw(readme)
                 else n !in dir
  {
    k := TextFilesMean(items, n);
    Overlaid(Encoded(descriptor), Raw(readme), assets, texts, n);
  }

  lemma Overlaid(descriptor: Content, readme: Content, assets: map<string, string>, texts: map<string, string>,
                 n: string)
    ensures var dir := map[TEMPLATE_FILE := descriptor, DEFAULT_README := readme] + (AsRaw(assets) + AsRaw(texts));
            if n in texts then n in dir && dir[n] == Raw(texts[n])
            else if n in assets then n in dir && dir[n] == Raw(assets[n])
            else if n == "template.json" then n in dir && dir[n] == descriptor
            else if n == "README.md" then n in dir && dir[n] == readme
            else n !in dir
  {
    assert "template.json" != "README.md" by {
      assert "template.json"[0] != "README.md"[0];
    }
  }

  function AsRaw(m: map<string, string>): Tree {
    map n | n in m :: Raw(m[n])
  }

  function Files(items: seq<Json>, assets: map<string, string>): Result<Tree, Error> {
    match TextFiles(items)
    case Err(e) => Err(e)
    case Ok(texts) => Ok(AsRaw(assets) + AsRaw(texts))
  }

  function NewConfig(c: TdkConfig): TdkConfig {
    c.(files := DefaultFiles())
  }

  function Base(t: Template, c: TdkConfig, readme: string): Tree {
    map[TEMPLATE_FILE := Encoded(JObj(LocalNewJson(t, NewConfig(c)))), DEFAULT_README := Raw(Unix(readme))]
  }

  // The directory made of an archive. `present` says whether the directory was there before.
  function Extracted(pkg: Package, present: bool, force: bool): Result<Tree, Error> {
    if pkg.descriptor.None? then Err(MissingDescriptor)
    else if !pkg.descriptor.value.JObj? then Err(Malformed)
    else
      var data := pkg.descriptor.value.fields;
      match LoadLocal(data)
      case Err(e) => Err(e)
      case Ok((t, c)) =>
        if present && !force then Err(Exists)
        else if "readme" !in data || !data["readme"].JStr? then Err(Malformed)
        else
          match Elements(Get(data, "files", JArr([])))
          case None => Err(Malformed)
          case Some(items) =>
            match Files(items, pkg.assets)
            case Err(e) => Err(e)
            case Ok(files) => Ok(Base(t, c, data["readme"].s) + files)
  }

  method ExtractPackage(pkg: Package, present: bool, force: bool) returns (r: Result<Tree, Error>)
    ensures r == Extracted(pkg, present, force)
  {
    if pkg.descriptor.None? {
      return Err(MissingDescriptor);
    }
    if !pkg.descriptor.value.JObj? {
      return Err(Malformed);
    }
    var data := pkg.descriptor.value.fields;
    var loaded := LoadLocal(data);
    if loaded.Err? {
      return Err(loaded.error);
    }
    if present && !force {
      return Err(Exists);
    }
    if "readme" !in data || !data["readme"].JStr? {
      return Err(Malformed);
    }
    var items := Elements(Get(data, "files", JArr([])));
    if items.None? {
      return Err(Malformed);
    }
    r := WriteFiles(Base(loaded.value.0, loaded.value.1, data["readme"].s), items.value, pkg.assets);
  }

  // A directory that exists is an error once the descriptor is read; by force it is replaced, and what was
  // in it does not matter.
  lemma ExistingDirectory(pkg: Package, force: bool)
    ensures Extracted(pkg, true, true) == Extracted(pkg, false, force)
    ensures Extracted(pkg, true, false).Err?
    ensures pkg.descriptor.Some? && pkg.descriptor.value.JObj? && LoadLocal(pkg.descriptor.value.fields).Ok? <==>
            Extracted(pkg, true, false) == Err(Exists)
  {
    if pkg.descriptor.Some? && pkg.descriptor.value.JObj? && Load(pkg.descriptor.value.fields).Err? {
      LoadErrors(pkg.descriptor.value.fields);
    }
  }

  // Writes the assets and then the text files into a directory.
  method WriteFiles(base: Tree, items: seq<Json>, assets: map<string, string>) returns (r: Result<Tree, Error>)
    ensures r == match Files(items, assets) case Err(e) => Err(e) case Ok(files) => Ok(base + files)
  {
    var dir := WriteAssets(base, assets);
    r := WriteTexts(dir, items);
    if r.Ok? {
      var texts := TextFiles(items).value;
      assert base + AsRaw(assets) + AsRaw(texts) == base + (AsRaw(assets) + AsRaw(texts));
    }
  }

  method WriteTexts(base: Tree, items: seq<Json>) returns (r: Result<Tree, Error>)
    ensures r == match TextFiles(items) case Err(e) => Err(e) case Ok(texts) => Ok(base + AsRaw(texts))
  {
    var dir := base;
    ghost var texts: map<string, string> := map[];
    for i := 0 to |items|
      invariant TextFiles(items[..i]) == Ok(texts) && dir == base + AsRaw(texts)
    {
      assert items[..i + 1][..i] == items[..i];
      if !IsFileItem(items[i]) {
        TextFilesFail(items, i + 1);
        return Err(Malformed);
      }
      var name, content := items[i].fields["fileName"].s, Unix(items[i].fields["content"].s);
      RawNext(base, texts, name, content);
      dir, texts := dir[name := Raw(content)], texts[name := content];
    }
    assert items[..|items|] == items;
    r := Ok(dir);
  }

  lemma RawNext(base: Tree, m: map<string, string>, n: string, content: string)
    ensures base + AsRaw(m[n := content]) == (base + AsRaw(m))[n := Raw(content)]
  {
  }

  method WriteAssets(base: Tree, assets: map<string, string>) returns (dir: Tree)
    ensures dir == base + AsRaw(assets)
  {
    dir := base;
    var todo := assets.Keys;
    while todo != {}
      invariant todo <= assets.Keys && dir == base + AsRaw(assets - todo)
      decreases todo
    {
      var n :| n in todo;
      dir, todo := dir[n := Raw(assets[n])], todo - {n};
    }
    assert assets - {} == assets;
  }

  lemma {:induction false} TextFilesFail(items: seq<Json>, n: nat)
    requires n <= |items| && TextFiles(items[..n]).Err?
    ensures TextFiles(items) == TextFiles(items[..n])
  {
    if n == |items| {
      assert items[..n] == items;
    } else {
      assert items[..|items| - 1][..n] == items[..n];
      TextFilesFail(items[..|items| - 1], n);
    }
  }

  /******* The round trip *******/

  function UnixFile(f: ProjectFile): string {
    if f.textual then Unix(f.content) else f.content
  }

  function UnixTree(files: ProjectFiles): Tree {
    map n | n in files :: Raw(UnixFile(files[n]))
  }

  // What becomes of a project: a new descriptor, its readme, and its files with LF line ends in texts.
  function Restored(t: Template, readme: string, files: ProjectFiles): Tree {
    Base(t, DEFAULT_CONFIG, readme) + UnixTree(files)
  }

  function UnixTexts(files: ProjectFiles, names: set<string>): map<string, string> {
    map n | n in names && n in files :: Unix(files[n].content)
  }

  lemma {:induction false} ItemsToFiles(items: seq<Json>, uuids: seq<string>, names: seq<string>, files: ProjectFiles)
    requires FileItems(items, uuids, names, files)
    ensures TextFiles(items) == Ok(UnixTexts(files, (set n | n in names)))
  {
    if items != [] {
      var k := |items| - 1;
      ItemsToFiles(items[..k], uuids[..k], names[..k], files);
      FileItem(uuids[k], names[k], files[names[k]].content);
      LastName(names, names[..k], names[k]);
      UnixTextsNext(files, (set m | m in names[..k]), names[k]);
    }
  }

  lemma FileItem(uuid: string, name: string, content: string)
    ensures var item := FileJson(uuid, name, content);
            IsFileItem(item) && item.fields["fileName"].s == name && item.fields["content"].s == content
  {
  }

  lemma LastName(names: seq<string>, init: seq<string>, last: string)
    requires names == init + [last]
    ensures (set n | n in names) == (set n | n in init) + {last}
  {
  }

  lemma UnixTextsNext(files: ProjectFiles, names: set<string>, n: string)
    requires n in files
    ensures UnixTexts(files, names + {n}) == UnixTexts(files, names)[n := Unix(files[n].content)]
  {
  }

  lemma AssetsAndTexts(files: ProjectFiles)
    ensures AsRaw(Assets(files)) + AsRaw(UnixTexts(files, Texts(files))) == UnixTree(files)
  {
    var a, t, all := Assets(files), UnixTexts(files, Texts(files)), UnixTree(files);
    var tree := AsRaw(a) + AsRaw(t);
    forall n ensures (n in tree <==> n in all) && (n in tree ==> tree[n] == all[n]) {
      assert n in tree <==> n in a || n in t;
    }
  }

  lemma FilesRestored(items: seq<Json>, uuids: seq<string>, names: seq<string>, files: ProjectFiles)
    requires FileItems(items, uuids, names, files) && (set n | n in names) == Texts(files)
    ensures Files(items, Assets(files)) == Ok(UnixTree(files))
  {
    ItemsToFiles(items, uuids, names, files);
    AssetsAndTexts(files);
  }

  lemma AddedFields(base: Fields, id: Json, readme: Json, more: Fields)
    requires more.Keys == {"files", "assets", "createdAt", "updatedAt"} && "_tdk" !in base
    requires "files" !in base && "assets" !in base && "createdAt" !in base && "updatedAt" !in base
    ensures more.Keys !! base["id" := id]["readme" := readme].Keys && "uuid" !in more
    ensures var data := base["id" := id]["readme" := readme] + more;
            && "_tdk" !in data && "files" in data && data["files"] == more["files"]
            && "readme" in data && data["readme"] == readme
  {
    assert "files" in more && "readme" !in more && "_tdk" !in more && "uuid" !in more;
    assert forall k :: k in more ==> k !in base && k != "id" && k != "readme";
  }

  lemma PackagedFields(t: Template, more: Fields)
    requires more.Keys == {"files", "assets", "createdAt", "updatedAt"}
    ensures more.Keys !! PackageJson(t).Keys && "uuid" !in more
    ensures var data := PackageJson(t) + more;
            && "_tdk" !in data && "files" in data && data["files"] == more["files"]
            && "readme" in data && data["readme"] == t.readme
  {
    CommonFields(t);
    CommonRoom(t);
    AddedFields(CommonJson(t), JStr(Coordinates(t.organizationId, t.templateId, t.version)), t.readme, more);
  }

  lemma RoundTripOf(data: Fields, assets: map<string, string>, t: Template, readme: string, items: seq<Json>,
                    files: ProjectFiles)
    requires Load(data) == Ok(t.(uuid := JNull)) && "_tdk" !in data
    requires "files" in data && data["files"] == JArr(items) && "readme" in data && data["readme"] == JStr(readme)
    requires Files(items, assets) == Ok(UnixTree(files))
    ensures Extracted(Package(Some(JObj(data)), assets), false, false) == Ok(Restored(t, readme, files))
  {
    assert LocalNewJson(t.(uuid := JNull), NewConfig(DEFAULT_CONFIG)) == LocalNewJson(t, NewConfig(DEFAULT_CONFIG));
  }

  // Packing and unpacking restores the project, exactly if no identifier part has a colon.
  lemma RoundTrip(pkg: Package, t: Template, files: ProjectFiles, now: string)
    requires IsPackage(pkg, t, files, now)
    requires Normal(t) && t.readme.JStr?
    ensures Extracted(pkg, false, false)
            == if CleanIds(t) then Ok(Restored(t, t.readme.s, files))
               else Err(BadId(Coordinates(t.organizationId, t.templateId, t.version)))
  {
    var texts, assets :| PackedAs(pkg, t, files, texts, assets, now);
    var more := AddedKeys(JArr(texts.items), JArr(assets.items), JStr(now), JStr(now));
    RoundTripPacked(pkg, t, files, more, texts);
  }

  lemma AddedKeys(files: Json, assets: Json, created: Json, updated: Json) returns (more: Fields)
    ensures more == map["files" := files, "assets" := assets, "createdAt" := created, "updatedAt" := updated]
    ensures more.Keys == {"files", "assets", "createdAt", "updatedAt"} && more["files"] == files
  {
    more := map["files" := files, "assets" := assets, "createdAt" := created, "updatedAt" := updated];
  }

  lemma RoundTripPacked(pkg: Package, t: Template, files: ProjectFiles, more: Fields, texts: Listed)
    requires pkg.descriptor == Some(JObj(PackageJson(t) + more)) && pkg.assets == Assets(files)
    requires more.Keys == {"files", "assets", "createdAt", "updatedAt"} && more["files"] == JArr(texts.items)
    requires FileItems(texts.items, texts.uuids, texts.names, files) && (set n | n in texts.names) == Texts(files)
    requires Normal(t) && t.readme.JStr?
    ensures Extracted(pkg, false, false)
            == if CleanIds(t) then Ok(Restored(t, t.readme.s, files))
               else Err(BadId(Coordinates(t.organizationId, t.templateId, t.version)))
  {
    PackagedFields(t, more);
    PackagedDescriptor(t, more);
    FilesRestored(texts.items, texts.uuids, texts.names, files);
    if CleanIds(t) {
      RoundTripOf(PackageJson(t) + more, pkg.assets, t, t.readme.s, texts.items, files);
    }
  }

  // What the restored project still has of the old one: the descriptor unless a file takes its name, the
  // readme likewise, and every file.
  lemma RestoredProject(t: Template, readme: string, files: ProjectFiles)
    ensures var dir := Restored(t, readme, files);
            && dir.Keys == files.Keys + {TEMPLATE_FILE, DEFAULT_README}
            && (TEMPLATE_FILE !in files <==>
                dir[TEMPLATE_FILE] == Encoded(JObj(LocalNewJson(t, NewConfig(DEFAULT_CONFIG)))))
            && (DEFAULT_README !in files ==> dir[DEFAULT_README] == Raw(Unix(readme)))
            && (forall n :: n in files ==> dir[n] == Raw(UnixFile(files[n])))
  {
    Overlay(Encoded(JObj(LocalNewJson(t, NewConfig(DEFAULT_CONFIG)))), Raw(Unix(readme)), files);
  }

  lemma Overlay(descriptor: Content, readme: Content, files: ProjectFiles)
    requires descriptor.Encoded?
    ensures var dir := map[TEMPLATE_FILE := descriptor, DEFAULT_README := readme] + UnixTree(files);
            && dir.Keys == files.Keys + {TEMPLATE_FILE, DEFAULT_README}
            && (dir[TEMPLATE_FILE] == descriptor <==> TEMPLATE_FILE !in files)
            && (DEFAULT_README !in files ==> dir[DEFAULT_README] == readme)
            && (forall n :: n in files ==> dir[n] == Raw(UnixFile(files[n])))
  {
  }

  /******* Which names meet the descriptor *******/

  // The components of a path.
  function Components(path: string): (parts: seq<string>)
    ensures parts != []
  {
    if path == "" then [""]
    else
      var init := Components(path[..|path| - 1]);
      var c := path[|path| - 1];
      if c == '/' then init + [""] else init[..|init| - 1] + [init[|init| - 1] + [c]]
  }

  // A pattern selects the paths it matches or, negated, takes them out again.
  datatype Pattern = Pattern(negated: bool, matches: string -> bool)

  // The last pattern that matches decides.
  predicate Selected(patterns: seq<Pattern>, path: string) {
    patterns != [] &&
    var p := patterns[|patterns| - 1];
    if p.matches(path) then !p.negated else Selected(patterns[..|patterns| - 1], path)
  }

  // A pattern without a slash matches a file of that name, and everything in a directory of that name.
  function Named(name: string): Pattern {
    Pattern(true, path => name in Components(path))
  }

  function StartingWith(c: char): Pattern {
    Pattern(true, path => exists part :: part in Components(path) && part != "" && part[0] == c)
  }

  // Appended to the patterns of every project; each of the first two stands for files and directories.
  function DefaultPatterns(): seq<Pattern> {
    [StartingWith('.'), StartingWith('~'), Named(TEMPLATE_FILE), Named("template.zip")]
  }

  // Loads the files of a directory that the patterns select, all but the readme.
  method LoadFiles(dir: ProjectFiles, patterns: seq<Pattern>, readme: Option<string>) returns (files: ProjectFiles)
    ensures files == LoadedFiles(dir, patterns, readme)
  {
    files := map[];
    var todo := dir.Keys;
    while todo != {}
      invariant todo <= dir.Keys && files == LoadedFiles(dir - todo, patterns, readme)
      decreases todo
    {
      var n :| n in todo;
      LoadedNext(dir, todo, n, patterns, readme);
      if Selected(patterns + DefaultPatterns(), n) && readme != Some(n) {
        files := files[n := dir[n]];
      }
      todo := todo - {n};
    }
    assert dir - {} == dir;
  }

  function LoadedFiles(dir: ProjectFiles, patterns: seq<Pattern>, readme: Option<string>): ProjectFiles {
    map n | n in dir && Selected(patterns + DefaultPatterns(), n) && readme != Some(n) :: dir[n]
  }

  lemma LoadedNext(dir: ProjectFiles, todo: set<string>, n: string, patterns: seq<Pattern>, readme: Option<string>)
    requires n in todo && todo <= dir.Keys
    ensures var loaded := LoadedFiles(dir - todo, patterns, readme);
            LoadedFiles(dir - (todo - {n}), patterns, readme)
            == if Selected(patterns + DefaultPatterns(), n) && readme != Some(n) then loaded[n := dir[n]] else loaded
  {
  }

  // The last pattern that matches, if any, does not negate.
  lemma {:induction false} SelectedMeans(patterns: seq<Pattern>, path: string)
    ensures Selected(patterns, path) <==> exists k :: 0 <= k < |patterns| && SelectsLast(patterns, path, k)
  {
    if patterns != [] {
      var n := |patterns| - 1;
      var init := patterns[..n];
      SelectedMeans(init, path);
      if patterns[n].matches(path) {
        assert SelectsLast(patterns, path, n) <==> !patterns[n].negated;
      } else {
        forall k | 0 <= k < n ensures SelectsLast(init, path, k) <==> SelectsLast(patterns, path, k) {
          assert forall j :: 0 <= j < n ==> init[j] == patterns[j];
        }
      }
    }
  }

  predicate SelectsLast(patterns: seq<Pattern>, path: string, k: nat)
    requires k < |patterns|
  {
    && patterns[k].matches(path) && !patterns[k].negated
    && forall j :: k < j < |patterns| ==> !patterns[j].matches(path)
  }

  // Whatever patterns a project has, nothing hidden, temporary or named like the descriptor or the archive
  // is loaded, at any depth.
  lemma NeverLoaded(patterns: seq<Pattern>, path: string, part: string)
    requires part in Components(path)
    requires "." <= part || "~" <= part || part == "template.json" || part == "template.zip"
    ensures !Selected(patterns + DefaultPatterns(), path)
  {
    var all := patterns + DefaultPatterns();
    SelectedMeans(all, path);
    var n := |patterns|;
    assert all[n] == StartingWith('.') && all[n + 1] == StartingWith('~');
    assert all[n + 2] == Named("template.json") && all[n + 3] == Named("template.zip");
    assert all[n].negated && all[n + 1].negated && all[n + 2].negated && all[n + 3].negated;
    assert all[n].matches(path) || all[n + 1].matches(path) || all[n + 2].matches(path) || all[n + 3].matches(path);
  }

  // Any other path is selected as the project's own patterns say.
  lemma OwnPatterns(patterns: seq<Pattern>, path: string)
    requires forall part :: part in Components(path) ==>
               !("." <= part) && !("~" <= part) && part != "template.json" && part != "template.zip"
    ensures Selected(patterns + DefaultPatterns(), path) <==> Selected(patterns, path)
  {
    var all, n := patterns + DefaultPatterns(), |patterns|;
    assert all[n..] == DefaultPatterns();
    SelectedMeans(all, path);
    SelectedMeans(patterns, path);
    forall j | n <= j < |all| ensures !all[j].matches(path) {
      assert all[j] == DefaultPatterns()[j - n];
    }
    forall k | 0 <= k < n ensures SelectsLast(all, path, k) <==> SelectsLast(patterns, path, k) {
      assert forall j :: 0 <= j < n ==> all[j] == patterns[j];
    }
  }

  // The components are what the slashes separate.
  lemma ComponentsMean(a: string, b: string)
    requires '/' !in b
    ensures Components(b) == [b] && Components(a + "/" + b) == Components(a) + [b]
  {
    ComponentsPlain(b);
    ComponentsAfter(a, b);
  }

  lemma {:induction false} ComponentsAfter(a: string, b: string)
    requires '/' !in b
    ensures Components(a + "/" + b) == Components(a) + [b]
    decreases |b|
  {
    if b == "" {
      assert a + "/" + b == a + "/";
      NextComponent(a, '/');
    } else {
      var n := |b| - 1;
      ComponentsAfter(a, b[..n]);
      NextComponent(a + "/" + b[..n], b[n]);
      Grown(a, b);
      LastReplaced(Components(a), b[..n], b[n]);
    }
  }

  lemma Grown(a: string, b: string)
    requires b != ""
    ensures a + "/" + b == (a + "/" + b[..|b| - 1]) + [b[|b| - 1]] && b == b[..|b| - 1] + [b[|b| - 1]]
  {
  }

  lemma NextComponent(path: string, c: char)
    ensures var init := Components(path);
            Components(path + [c])
            == if c == '/' then init + [""] else init[..|init| - 1] + [init[|init| - 1] + [c]]
  {
    assert (path + [c])[..|path|] == path;
  }

  lemma LastReplaced(parts: seq<string>, last: string, c: char)
    ensures var init := parts + [last];
            init[..|init| - 1] + [init[|init| - 1] + [c]] == parts + [last + [c]]
  {
  }

  lemma {:induction false} ComponentsPlain(path: string)
    requires '/' !in path
    ensures Components(path) == [path]
  {
    if path != "" {
      ComponentsPlain(path[..|path| - 1]);
      assert path == path[..|path| - 1] + [path[|path| - 1]];
    }
  }

  // So packing and unpacking a project that was loaded keeps its descriptor.
  lemma LoadedKeepsDescriptor(t: Template, readme: string, dir: ProjectFiles, patterns: seq<Pattern>,
                              used: Option<string>)
    ensures var restored := Restored(t, readme, LoadedFiles(dir, patterns, used));
            TEMPLATE_FILE in restored
            && restored[TEMPLATE_FILE] == Encoded(JObj(LocalNewJson(t, NewConfig(DEFAULT_CONFIG))))
  {
    ComponentsPlain(TEMPLATE_FILE);
    NeverLoaded(patterns, TEMPLATE_FILE, TEMPLATE_FILE);
    RestoredProject(t, readme, LoadedFiles(dir, patterns, used));
  }

  // An archive of any origin: the directory has the new descriptor exactly if neither an asset nor a text
  // file of the archive has its name.
  lemma ExtractedDescriptor(pkg: Package, present: bool, force: bool)
    requires Extracted(pkg, present, force).Ok?
    ensures var data, dir := pkg.descriptor.value.fields, Extracted(pkg, present, force).value;
            var (t, c) := LoadLocal(data).value;
            var texts := TextFiles(Elements(Get(data, "files", JArr([]))).value).value;
            && TEMPLATE_FILE in dir
            && (dir[TEMPLATE_FILE] == Encoded(JObj(LocalNewJson(t, NewConfig(c))))
                <==> TEMPLATE_FILE !in pkg.assets && TEMPLATE_FILE !in texts)
  {
  }

  // The restored descriptor is read as the template without its UUID and readme, with the default files.
  lemma RestoredDescriptor(t: Template)
    requires Normal(t)
    ensures LoadLocal(LocalNewJson(t, NewConfig(DEFAULT_CONFIG)))
            == Ok((t.(uuid := JNull, readme := JStr("")),
                   TdkConfig(JStr("0.0.0"), "README.md", JArr([JStr("*"), JStr("!.git/"), JStr("!.env")]))))
  {
    NewProjectDescriptor(t, NewConfig(DEFAULT_CONFIG));
  }

  // Texts are unchanged exactly if they had no CRLF, assets always.
  lemma FileSurvives(f: ProjectFile)
    ensures UnixFile(f) == f.content <==> !f.textual || !HasCrlf(f.content)
  {
    UnixIdentity(f.content);
  }

  // An archive whose text file takes the place of the descriptor.
  lemma DescriptorOverwritten() returns (pkg: Package, dir: Tree)
    ensures Extracted(pkg, false, false) == Ok(dir)
    ensures TEMPLATE_FILE in dir && dir[TEMPLATE_FILE] == Raw("")
  {
    var item := FileJson("u", TEMPLATE_FILE, "");
    var data: Fields := map["templateId" := JStr("t"), "version" := JStr("1"), "readme" := JStr(""),
                            "files" := JArr([item])];
    pkg := Package(Some(JObj(data)), map[]);
    assert IsFileItem(item) && [item][..0] == [];
    assert TextFiles([item]) == Ok(map[TEMPLATE_FILE := ""]);
    assert Load(data).Ok? && LoadLocal(data).Ok?;
    dir := Extracted(pkg, false, false).value;
  }
}
