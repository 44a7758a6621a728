/** Template descriptors: how they are read from JSON, with defaults, and written again. */
module TdkDescriptor {
  import opened Common

  datatype Json =
    | JNull
    | JBool(b: bool)
    | JNum(n: int)
    | JStr(s: string)
    | JArr(items: seq<Json>)
    | JObj(fields: map<string, Json>)

  type Fields = map<string, Json>

  datatype Error = Malformed | BadId(id: string) | NoId | MissingDescriptor | Exists

  const METAMODEL_VERSION: string := "18.0"
  const DEFAULT_ICON: string := "fas fa-file"
  const DEFAULT_README: string := "README.md"

  datatype PackageFilter = PackageFilter(organizationId: Json, kmId: Json, minVersion: Json, maxVersion: Json)
  datatype Step = Step(name: Json, options: Json)
  datatype Format = Format(uuid: Json, name: Json, icon: Json, steps: seq<Step>)
  datatype TdkConfig = TdkConfig(version: Json, readmeFile: string, files: Json)
  datatype Template = Template(
    uuid: Json,
    organizationId: string,
    templateId: string,
    version: string,
    name: Json,
    description: Json,
    readme: Json,
    license: Json,
    metamodelVersion: Json,
    allowedPackages: seq<PackageFilter>,
    formats: seq<Format>)

  /******* Python's view of JSON values *******/

  predicate Truthy(j: Json) {
    match j
    case JNull => false
    case JBool(b) => b
    case JNum(n) => n != 0
    case JStr(s) => s != ""
    case JArr(items) => items != []
    case JObj(fields) => fields != map[]
  }

  function Or(j: Json, default: Json): Json {
    if Truthy(j) then j else default
  }

  function Get(o: Fields, key: string, default: Json): Json {
    if key in o then o[key] else default
  }

  // What a loop over a value sees. The elements of other non-empty values would be strings, on which
  // every loop here fails at once.
  function Elements(j: Json): Option<seq<Json>> {
    match j
    case JArr(items) => Some(items)
    case JStr(s) => if s == "" then Some([]) else None
    case JObj(fields) => if fields == map[] then Some([]) else None
    case _ => None
  }

  // What Python takes for false, and what a loop runs over.
  lemma ValueMeans(j: Json, items: seq<Json>)
    ensures !Truthy(j) <==>
            || j == JNull || j == JBool(false) || j == JNum(0) || j == JStr("") || j == JArr([]) || j == JObj(map[])
    ensures Elements(j) == Some(items) <==>
            j == JArr(items) || (items == [] && (j == JStr("") || j == JObj(map[])))
  {
  }

  /******* Composite identifiers *******/

  function Count(s: string): nat {
    if s == "" then 0 else (if s[0] == ':' then 1 else 0) + Count(s[1..])
  }

  function Split(s: string): (parts: seq<string>)
    ensures |parts| == Count(s) + 1
  {
    if s == "" then [""]
    else
      var parts := Split(s[1..]);
      if s[0] == ':' then [""] + parts else [[s[0]] + parts[0]] + parts[1..]
  }

  function Coordinates(organizationId: string, templateId: string, version: string): string {
    organizationId + ":" + templateId + ":" + version
  }

  lemma {:induction false} CountAppend(s: string, t: string)
    ensures Count(s + t) == Count(s) + Count(t)
  {
    if s == "" {
      assert s + t == t;
    } else {
      assert (s + t)[1..] == s[1..] + t;
      CountAppend(s[1..], t);
    }
  }

  lemma {:induction false} CountZero(s: string)
    ensures Count(s) == 0 <==> ':' !in s
  {
    if s != "" {
      CountZero(s[1..]);
      assert s == [s[0]] + s[1..];
    }
  }

  lemma {:induction false} SplitFirst(s: string, t: string)
    requires ':' !in s
    ensures Split(s + ":" + t) == [s] + Split(t)
  {
    var all := s + ":" + t;
    if s == "" {
      assert all[1..] == t;
    } else {
      assert all[1..] == s[1..] + ":" + t;
      SplitFirst(s[1..], t);
      assert [s[0]] + s[1..] == s;
      assert ([s[1..]] + Split(t))[1..] == Split(t);
    }
  }

  lemma {:induction false} SplitNone(s: string)
    requires ':' !in s
    ensures Split(s) == [s]
  {
    if s != "" {
      SplitNone(s[1..]);
      assert [s[0]] + s[1..] == s;
    }
  }

  lemma {:induction false} SplitParts(s: string)
    ensures forall i :: 0 <= i < |Split(s)| ==> ':' !in Split(s)[i]
    ensures s == Joined(Split(s))
  {
    if s != "" {
      SplitParts(s[1..]);
      var parts := Split(s[1..]);
      assert s == [s[0]] + s[1..];
      if s[0] == ':' {
        assert ([""] + parts)[1..] == parts;
      } else {
        assert ([[s[0]] + parts[0]] + parts[1..])[1..] == parts[1..];
      }
    }
  }

  function Joined(parts: seq<string>): string
    requires parts != []
  {
    if |parts| == 1 then parts[0] else parts[0] + ":" + Joined(parts[1..])
  }

  predicate CleanIds(t: Template) {
    ':' !in t.organizationId && ':' !in t.templateId && ':' !in t.version
  }

  // A composite identifier has two colons exactly when its parts have none, and is then split into them.
  lemma CoordinatesSplit(a: string, b: string, c: string)
    ensures Count(Coordinates(a, b, c)) == 2 <==> ':' !in a && ':' !in b && ':' !in c
    ensures ':' !in a && ':' !in b && ':' !in c ==> Split(Coordinates(a, b, c)) == [a, b, c]
  {
    CountAppend(a + ":" + b + ":", c);
    CountAppend(a + ":" + b, ":");
    CountAppend(a + ":", b);
    CountAppend(a, ":");
    CountZero(a);
    CountZero(b);
    CountZero(c);
    assert Count(":") == 1 by {
      assert ":"[1..] == "";
    }
    if ':' !in a && ':' !in b && ':' !in c {
      assert Coordinates(a, b, c) == a + ":" + (b + ":" + c);
      SplitFirst(a, b + ":" + c);
      SplitFirst(b, c);
      SplitNone(c);
    }
  }

  /******* Loading *******/

  function LoadFilter(j: Json): Result<PackageFilter, Error> {
    if !j.JObj? then Err(Malformed)
    else Ok(PackageFilter(Get(j.fields, "orgId", JNull), Get(j.fields, "kmId", JNull),
                          Get(j.fields, "minVersion", JNull), Get(j.fields, "maxVersion", JNull)))
  }

  function LoadStep(j: Json): Result<Step, Error> {
    if !j.JObj? then Err(Malformed)
    else Ok(Step(Get(j.fields, "name", JNull), Or(Get(j.fields, "options", JNull), JObj(map[]))))
  }

  // All elements, or the first failure.
  function LoadAll<T>(load: Json -> Result<T, Error>, js: seq<Json>): Result<seq<T>, Error> {
    if js == [] then Ok([])
    else
      match LoadAll(load, js[..|js| - 1])
      case Err(e) => Err(e)
      case Ok(ts) =>
        match load(js[|js| - 1])
        case Err(e) => Err(e)
        case Ok(t) => Ok(ts + [t])
  }

  function LoadElements<T>(load: Json -> Result<T, Error>, j: Json): Result<seq<T>, Error> {
    match Elements(j)
    case None => Err(Malformed)
    case Some(js) => LoadAll(load, js)
  }

  function LoadFormat(j: Json): Result<Format, Error> {
    if !j.JObj? then Err(Malformed)
    else
      match LoadElements(LoadStep, Get(j.fields, "steps", JArr([])))
      case Err(e) => Err(e)
      case Ok(steps) =>
        Ok(Format(Get(j.fields, "uuid", JNull), Get(j.fields, "name", JNull),
                  Or(Get(j.fields, "icon", JNull), JStr(DEFAULT_ICON)), steps))
  }

  // Template identifier and version.
  function LoadIds(data: Fields): Result<(string, string), Error> {
    if "id" in data then
      if !data["id"].JStr? then Err(Malformed)
      else if Count(data["id"].s) != 2 then Err(BadId(data["id"].s))
      else Ok((Split(data["id"].s)[1], Split(data["id"].s)[2]))
    else if "templateId" !in data || "version" !in data then Err(NoId)
    else if !data["templateId"].JStr? || !data["version"].JStr? then Err(Malformed)
    else Ok((data["templateId"].s, data["version"].s))
  }

  function Header(data: Fields, organizationId: string, ids: (string, string)): Template {
    Template(
      Get(data, "uuid", JNull), organizationId, ids.0, ids.1,
      Get(data, "name", JStr("Unknown template")), Get(data, "description", JStr("")), Get(data, "readme", JStr("")),
      Get(data, "license", JStr("no-license")), Or(Get(data, "metamodelVersion", JNull), JStr(METAMODEL_VERSION)),
      [], [])
  }

  function Load(data: Fields): Result<Template, Error> {
    match LoadIds(data)
    case Err(e) => Err(e)
    case Ok(ids) =>
      var organizationId := Get(data, "organizationId", JStr("~"));
      if !organizationId.JStr? then Err(Malformed)
      else
        match LoadElements(LoadFilter, Get(data, "allowedPackages", JArr([])))
        case Err(e) => Err(e)
        case Ok(filters) =>
          match LoadElements(LoadFormat, Get(data, "formats", JArr([])))
          case Err(e) => Err(e)
          case Ok(formats) => Ok(Header(data, organizationId.s, ids).(allowedPackages := filters, formats := formats))
  }

  // The template identifier and the version come from a composite identifier with three parts, or else
  // from their own fields.
  lemma IdsMean(data: Fields, ids: (string, string))
    ensures LoadIds(data) == Ok(ids) <==>
            if "id" in data then
              && ':' !in ids.0 && ':' !in ids.1
              && exists o: string :: ':' !in o && data["id"] == JStr(Coordinates(o, ids.0, ids.1))
            else
              && "templateId" in data && data["templateId"] == JStr(ids.0)
              && "version" in data && data["version"] == JStr(ids.1)
    ensures LoadIds(data) == Err(NoId) <==> "id" !in data && ("templateId" !in data || "version" !in data)
    ensures LoadIds(data).Err? && "id" in data && data["id"].JStr? ==> LoadIds(data) == Err(BadId(data["id"].s))
  {
    if "id" in data && data["id"].JStr? {
      var s := data["id"].s;
      if Count(s) == 2 {
        ThreeParts(s);
      }
      if o: string :| ':' !in o && ':' !in ids.0 && ':' !in ids.1 && s == Coordinates(o, ids.0, ids.1) {
        CoordinatesSplit(o, ids.0, ids.1);
      }
    }
  }

  lemma ThreeParts(s: string)
    requires Count(s) == 2
    ensures var p := Split(s);
            ':' !in p[0] && ':' !in p[1] && ':' !in p[2] && s == Coordinates(p[0], p[1], p[2])
  {
    SplitParts(s);
    var p := Split(s);
    assert p[1..] == [p[1], p[2]] && [p[1], p[2]][1..] == [p[2]];
    assert Joined([p[2]]) == p[2] && Joined([p[1], p[2]]) == p[1] + ":" + p[2];
    assert p[0] + ":" + (p[1] + ":" + p[2]) == Coordinates(p[0], p[1], p[2]);
  }

  // A loaded template, field by field, with the default of each.
  lemma LoadDefaults(data: Fields)
    requires Load(data).Ok?
    ensures var t := Load(data).value;
            && t.uuid == (if "uuid" in data then data["uuid"] else JNull)
            && JStr(t.organizationId) == (if "organizationId" in data then data["organizationId"] else JStr("~"))
            && LoadIds(data) == Ok((t.templateId, t.version))
            && t.name == (if "name" in data then data["name"] else JStr("Unknown template"))
            && t.description == (if "description" in data then data["description"] else JStr(""))
            && t.readme == (if "readme" in data then data["readme"] else JStr(""))
            && t.license == (if "license" in data then data["license"] else JStr("no-license"))
            && t.metamodelVersion == (if "metamodelVersion" in data && Truthy(data["metamodelVersion"])
                                      then data["metamodelVersion"] else JStr("18.0"))
            && ("allowedPackages" !in data ==> t.allowedPackages == []) && ("formats" !in data ==> t.formats == [])
  {
  }

  // The parts of a template likewise.
  lemma PartDefaults(j: Json)
    ensures LoadFilter(j) == if !j.JObj? then Err(Malformed) else Ok(PackageFilter(
              if "orgId" in j.fields then j.fields["orgId"] else JNull,
              if "kmId" in j.fields then j.fields["kmId"] else JNull,
              if "minVersion" in j.fields then j.fields["minVersion"] else JNull,
              if "maxVersion" in j.fields then j.fields["maxVersion"] else JNull))
    ensures LoadStep(j) == if !j.JObj? then Err(Malformed) else Ok(Step(
              if "name" in j.fields then j.fields["name"] else JNull,
              if "options" in j.fields && Truthy(j.fields["options"]) then j.fields["options"] else JObj(map[])))
    ensures LoadFormat(j).Ok? ==>
              && j.JObj? && var f := LoadFormat(j).value;
              && f.uuid == (if "uuid" in j.fields then j.fields["uuid"] else JNull)
              && f.name == (if "name" in j.fields then j.fields["name"] else JNull)
              && f.icon == (if "icon" in j.fields && Truthy(j.fields["icon"]) then j.fields["icon"]
                            else JStr("fas fa-file"))
              && ("steps" !in j.fields ==> f.steps == [])
  {
  }

  lemma {:induction false} ElementErrors<T>(load: Json -> Result<T, Error>, js: seq<Json>)
    requires forall j :: load(j).Err? ==> load(j).error == Malformed
    ensures LoadAll(load, js).Err? ==> LoadAll(load, js).error == Malformed
  {
    if js != [] {
      ElementErrors(load, js[..|js| - 1]);
    }
  }

  // How loading fails: without identifiers, with a composite one of not three parts, or on a malformed value.
  lemma LoadErrors(data: Fields)
    requires Load(data).Err?
    ensures || (Load(data).error == NoId && "id" !in data && ("templateId" !in data || "version" !in data))
            || ("id" in data && data["id"].JStr? && Count(data["id"].s) != 2 && Load(data).error == BadId(data["id"].s))
            || Load(data).error == Malformed
  {
    forall j | LoadFormat(j).Err? ensures LoadFormat(j).error == Malformed {
      if j.JObj? && Elements(Get(j.fields, "steps", JArr([]))).Some? {
        ElementErrors(LoadStep, Elements(Get(j.fields, "steps", JArr([]))).value);
      }
    }
    if Elements(Get(data, "allowedPackages", JArr([]))).Some? {
      ElementErrors(LoadFilter, Elements(Get(data, "allowedPackages", JArr([]))).value);
    }
    if Elements(Get(data, "formats", JArr([]))).Some? {
      ElementErrors(LoadFormat, Elements(Get(data, "formats", JArr([]))).value);
    }
  }

  // Loading element by element, as the source does.
  method LoadLoop<T>(load: Json -> Result<T, Error>, j: Json) returns (r: Result<seq<T>, Error>)
    ensures r == LoadElements(load, j)
  {
    var elements := Elements(j);
    if elements.None? {
      return Err(Malformed);
    }
    var js := elements.value;
    var loaded: seq<T> := [];
    for i := 0 to |js|
      invariant LoadAll(load, js[..i]) == Ok(loaded)
    {
      assert js[..i + 1][..i] == js[..i];
      var next := load(js[i]);
      if next.Err? {
        LoadAllFails(load, js, i + 1);
        return Err(next.error);
      }
      loaded := loaded + [next.value];
    }
    assert js[..|js|] == js;
    r := Ok(loaded);
  }

  lemma {:induction false} LoadAllFails<T>(load: Json -> Result<T, Error>, js: seq<Json>, n: nat)
    requires n <= |js| && LoadAll(load, js[..n]).Err?
    ensures LoadAll(load, js) == LoadAll(load, js[..n])
  {
    if n == |js| {
      assert js[..n] == js;
    } else {
      assert js[..|js| - 1][..n] == js[..n];
      LoadAllFails(load, js[..|js| - 1], n);
    }
  }

  method CommonLoad(data: Fields) returns (r: Result<Template, Error>)
    ensures r == Load(data)
  {
    var ids := LoadIds(data);
    if ids.Err? {
      return Err(ids.error);
    }
    var organizationId := Get(data, "organizationId", JStr("~"));
    if !organizationId.JStr? {
      return Err(Malformed);
    }
    var template := Header(data, organizationId.s, ids.value);
    var filters := LoadLoop(LoadFilter, Get(data, "allowedPackages", JArr([])));
    if filters.Err? {
      return Err(filters.error);
    }
    var formats := LoadLoop(LoadFormat, Get(data, "formats", JArr([])));
    if formats.Err? {
      return Err(formats.error);
    }
    r := Ok(template.(allowedPackages := filters.value, formats := formats.value));
  }

  /******* Writing *******/

  function FilterJson(f: PackageFilter): Json {
    JObj(map["orgId" := f.organizationId, "kmId" := f.kmId, "minVersion" := f.minVersion, "maxVersion" := f.maxVersion])
  }

  function StepJson(s: Step): Json {
    JObj(map["name" := s.name, "options" := s.options])
  }

  function FormatJson(f: Format): Json {
    JObj(map["uuid" := f.uuid, "name" := f.name, "icon" := f.icon, "steps" := JArr(Each(StepJson, f.steps))])
  }

  function Each<T>(write: T -> Json, ts: seq<T>): seq<Json> {
    seq(|ts|, i requires 0 <= i < |ts| => write(ts[i]))
  }

  // What every form of the descriptor has.
  function CommonJson(t: Template): Fields {
    map["templateId" := JStr(t.templateId), "organizationId" := JStr(t.organizationId), "version" := JStr(t.version),
        "name" := t.name, "description" := t.description, "license" := t.license,
        "metamodelVersion" := t.metamodelVersion,
        "allowedPackages" := JArr(Each(FilterJson, t.allowedPackages)),
        "formats" := JArr(Each(FormatJson, t.formats))]
  }

  function PackageJson(t: Template): Fields {
    CommonJson(t)["id" := JStr(Coordinates(t.organizationId, t.templateId, t.version))]["readme" := t.readme]
  }

  /******* Reading what was written *******/

  predicate NormalStep(s: Step) {
    Truthy(s.options) || s.options == JObj(map[])
  }

  predicate NormalFormat(f: Format) {
    Truthy(f.icon) && forall i :: 0 <= i < |f.steps| ==> NormalStep(f.steps[i])
  }

  // The defaults are filled in.
  predicate Normal(t: Template) {
    Truthy(t.metamodelVersion) && forall i :: 0 <= i < |t.formats| ==> NormalFormat(t.formats[i])
  }

  lemma {:induction false} LoadAllEach<T>(load: Json -> Result<T, Error>, write: T -> Json, ts: seq<T>)
    requires forall i :: 0 <= i < |ts| ==> load(write(ts[i])) == Ok(ts[i])
    ensures LoadAll(load, Each(write, ts)) == Ok(ts)
  {
    if ts == [] {
    } else {
      var n := |ts| - 1;
      LoadAllEach(load, write, ts[..n]);
      assert Each(write, ts)[..n] == Each(write, ts[..n]);
      assert ts[..n] + [ts[n]] == ts;
    }
  }

  lemma FormatRoundTrip(f: Format)
    requires NormalFormat(f)
    ensures LoadFormat(FormatJson(f)) == Ok(f)
  {
    forall i | 0 <= i < |f.steps| ensures LoadStep(StepJson(f.steps[i])) == Ok(f.steps[i]) {
      assert NormalStep(f.steps[i]);
    }
    LoadAllEach(LoadStep, StepJson, f.steps);
  }

  // Whatever other fields there are.
  predicate Extends(data: Fields, base: Fields) {
    forall k :: k in base ==> k in data && data[k] == base[k]
  }

  predicate SameFields(data: Fields, t: Template) {
    && "allowedPackages" in data && data["allowedPackages"] == JArr(Each(FilterJson, t.allowedPackages))
    && "formats" in data && data["formats"] == JArr(Each(FormatJson, t.formats))
    && "organizationId" in data && data["organizationId"] == JStr(t.organizationId)
    && "name" in data && data["name"] == t.name
    && "description" in data && data["description"] == t.description
    && "license" in data && data["license"] == t.license
    && "metamodelVersion" in data && data["metamodelVersion"] == t.metamodelVersion
    && "templateId" in data && data["templateId"] == JStr(t.templateId)
    && "version" in data && data["version"] == JStr(t.version)
  }

  lemma CommonFields(t: Template)
    ensures SameFields(CommonJson(t), t)
    ensures var base := CommonJson(t); "id" !in base && "uuid" !in base && "readme" !in base && "_tdk" !in base
  {
  }

  lemma CommonRoom(t: Template)
    ensures var base := CommonJson(t);
            "files" !in base && "assets" !in base && "createdAt" !in base && "updatedAt" !in base
  {
  }

  lemma KeepFields(base: Fields, data: Fields, t: Template)
    requires SameFields(base, t) && Extends(data, base)
    ensures SameFields(data, t)
  {
  }

  lemma LoadSame(data: Fields, t: Template)
    requires Normal(t) && SameFields(data, t)
    ensures Load(data) ==
            match LoadIds(data)
            case Err(e) => Err(e)
            case Ok(ids) => Ok(t.(uuid := Get(data, "uuid", JNull), readme := Get(data, "readme", JStr("")),
                                  templateId := ids.0, version := ids.1))
  {
    LoadLists(t);
  }

  lemma LoadLists(t: Template)
    requires Normal(t)
    ensures LoadElements(LoadFilter, JArr(Each(FilterJson, t.allowedPackages))) == Ok(t.allowedPackages)
    ensures LoadElements(LoadFormat, JArr(Each(FormatJson, t.formats))) == Ok(t.formats)
  {
    LoadAllEach(LoadFilter, FilterJson, t.allowedPackages);
    forall i | 0 <= i < |t.formats| ensures LoadFormat(FormatJson(t.formats[i])) == Ok(t.formats[i]) {
      FormatRoundTrip(t.formats[i]);
    }
    LoadAllEach(LoadFormat, FormatJson, t.formats);
  }

  lemma PackageFields(base: Fields, t: Template, id: Json, more: Fields)
    requires SameFields(base, t) && "id" !in base && "readme" !in base && "uuid" !in base + more
    requires more.Keys !! base.Keys + {"id", "readme"}
    ensures var data := base["id" := id]["readme" := t.readme] + more;
            && SameFields(data, t) && "uuid" !in data
            && "id" in data && data["id"] == id && "readme" in data && data["readme"] == t.readme
  {
    var data := base["id" := id]["readme" := t.readme] + more;
    forall k | k in base ensures k in data && data[k] == base[k] {
      assert k !in more;
    }
    KeepFields(base, data, t);
    assert "id" !in more && "readme" !in more;
  }

  lemma LoadPackaged(data: Fields, t: Template)
    requires Normal(t) && SameFields(data, t) && "uuid" !in data
    requires "id" in data && data["id"] == JStr(Coordinates(t.organizationId, t.templateId, t.version))
    requires "readme" in data && data["readme"] == t.readme
    ensures Load(data)
            == if CleanIds(t) then Ok(t.(uuid := JNull))
               else Err(BadId(Coordinates(t.organizationId, t.templateId, t.version)))
  {
    LoadSame(data, t);
    CoordinatesSplit(t.organizationId, t.templateId, t.version);
  }

  // A packaged descriptor is read back, all but its UUID, exactly if no identifier part has a colon.
  // Other fields may have been added to it meanwhile.
  lemma PackagedDescriptor(t: Template, more: Fields)
    requires Normal(t) && more.Keys !! PackageJson(t).Keys && "uuid" !in more
    ensures Load(PackageJson(t) + more)
            == if CleanIds(t) then Ok(t.(uuid := JNull))
               else Err(BadId(Coordinates(t.organizationId, t.templateId, t.version)))
  {
    CommonFields(t);
    PackageFields(CommonJson(t), t, JStr(Coordinates(t.organizationId, t.templateId, t.version)), more);
    LoadPackaged(PackageJson(t) + more, t);
  }

  lemma {:induction false} LoadAllEvery<T>(load: Json -> Result<T, Error>, js: seq<Json>, p: T -> bool)
    requires forall j :: load(j).Ok? ==> p(load(j).value)
    ensures LoadAll(load, js).Ok? ==> forall i :: 0 <= i < |LoadAll(load, js).value| ==> p(LoadAll(load, js).value[i])
  {
    if js != [] {
      LoadAllEvery(load, js[..|js| - 1], p);
    }
  }

  // Whatever is loaded has its defaults filled in.
  lemma LoadedIsNormal(data: Fields)
    ensures Load(data).Ok? ==> Normal(Load(data).value)
  {
    if Load(data).Ok? {
      forall j | LoadFormat(j).Ok? ensures NormalFormat(LoadFormat(j).value) {
        LoadAllEvery(LoadStep, Elements(Get(j.fields, "steps", JArr([]))).value, NormalStep);
      }
      LoadAllEvery(LoadFormat, Elements(Get(data, "formats", JArr([]))).value, NormalFormat);
    }
  }

  /******* Local projects *******/

  // The installed version of the tool; without package metadata it is this one.
  const VERSION: string := "0.0.0"

  function DefaultFiles(): Json {
    JArr([JStr("*"), JStr("!.git/"), JStr("!.env")])
  }

  const DEFAULT_CONFIG := TdkConfig(JStr(VERSION), DEFAULT_README, JArr([]))

  function LoadConfig(j: Json): Result<TdkConfig, Error> {
    if !j.JObj? then Err(Malformed)
    else
      var readme := Or(Get(j.fields, "readmeFile", JNull), JStr(DEFAULT_README));
      if !readme.JStr? then Err(Malformed)
      else Ok(TdkConfig(Or(Get(j.fields, "version", JNull), JStr(VERSION)), readme.s,
                        Or(Get(j.fields, "files", DefaultFiles()), JArr([]))))
  }

  // The tool section, with the default of each field; an empty list of patterns stays empty.
  lemma ConfigDefaults(j: Json)
    requires j.JObj?
    ensures LoadConfig(j).Err? <==>
            "readmeFile" in j.fields && Truthy(j.fields["readmeFile"]) && !j.fields["readmeFile"].JStr?
    ensures LoadConfig(j).Ok? ==>
              var c := LoadConfig(j).value;
              && c.version == (if "version" in j.fields && Truthy(j.fields["version"]) then j.fields["version"]
                               else JStr("0.0.0"))
              && JStr(c.readmeFile) == (if "readmeFile" in j.fields && Truthy(j.fields["readmeFile"])
                                        then j.fields["readmeFile"] else JStr("README.md"))
              && c.files == if "files" !in j.fields then JArr([JStr("*"), JStr("!.git/"), JStr("!.env")])
                            else if Truthy(j.fields["files"]) then j.fields["files"] else JArr([])
  {
  }

  // A project without a tool section gets the one of a new project.
  lemma LocalDefaults(data: Fields)
    requires "_tdk" !in data
    ensures LoadLocal(data) == match Load(data)
                               case Err(e) => Err(e)
                               case Ok(t) => Ok((t, TdkConfig(JStr("0.0.0"), "README.md", JArr([]))))
  {
  }

  function LoadLocal(data: Fields): Result<(Template, TdkConfig), Error> {
    match Load(data)
    case Err(e) => Err(e)
    case Ok(t) =>
      if "_tdk" !in data then Ok((t, DEFAULT_CONFIG))
      else
        match LoadConfig(data["_tdk"])
        case Err(e) => Err(e)
        case Ok(config) => Ok((t, config))
  }

  function ConfigJson(c: TdkConfig): Json {
    JObj(map["version" := c.version, "readmeFile" := JStr(c.readmeFile), "files" := c.files])
  }

  predicate NormalConfig(c: TdkConfig) {
    Truthy(c.version) && c.readmeFile != "" && (Truthy(c.files) || c.files == JArr([]))
  }

  // A descriptor for a new project.
  function LocalNewJson(t: Template, c: TdkConfig): Fields {
    CommonJson(t)["_tdk" := ConfigJson(c)]
  }

  // A descriptor for the project it was loaded from: the old fields stay, the known ones are replaced.
  function LocalJson(t: Template, c: TdkConfig, loaded: Fields): Fields {
    loaded + LocalNewJson(t, c)
  }

  lemma ConfigRoundTrip(c: TdkConfig)
    requires NormalConfig(c)
    ensures LoadConfig(ConfigJson(c)) == Ok(c)
  {
  }

  lemma LocalFields(base: Fields, t: Template, config: Json, loaded: Fields)
    requires SameFields(base, t) && "id" !in base && "uuid" !in base && "readme" !in base
    ensures var data := loaded + base["_tdk" := config];
            && SameFields(data, t) && "_tdk" in data && data["_tdk"] == config
            && SameAt("id", data, loaded) && SameAt("uuid", data, loaded) && SameAt("readme", data, loaded)
  {
    var data := loaded + base["_tdk" := config];
    assert "_tdk" in base["_tdk" := config];
    assert SameFields(base["_tdk" := config], t);
    KeepFields(base["_tdk" := config], data, t);
  }

  predicate SameAt(k: string, a: Fields, b: Fields) {
    (k in a <==> k in b) && (k in a ==> a[k] == b[k])
  }

  // The old composite identifier still says the same.
  predicate IdAgrees(loaded: Fields, t: Template) {
    "id" in loaded ==>
      loaded["id"].JStr? && Count(loaded["id"].s) == 2
      && Split(loaded["id"].s)[1] == t.templateId && Split(loaded["id"].s)[2] == t.version
  }

  lemma LoadStored(data: Fields, t: Template, c: TdkConfig)
    requires Normal(t) && NormalConfig(c) && SameFields(data, t) && "_tdk" in data && data["_tdk"] == ConfigJson(c)
    ensures LoadLocal(data) == Ok((t.(uuid := Get(data, "uuid", JNull), readme := Get(data, "readme", JStr(""))), c))
            <==> IdAgrees(data, t)
  {
    LoadSame(data, t);
    ConfigRoundTrip(c);
  }

  // A stored descriptor is read back exactly if no outdated composite identifier was kept in it, since
  // that one takes precedence over the template identifier and version that are rewritten.
  lemma StoredDescriptor(t: Template, c: TdkConfig, loaded: Fields)
    requires Normal(t) && NormalConfig(c)
    ensures LoadLocal(LocalJson(t, c, loaded))
            == Ok((t.(uuid := Get(loaded, "uuid", JNull), readme := Get(loaded, "readme", JStr(""))), c))
            <==> IdAgrees(loaded, t)
  {
    CommonFields(t);
    LocalFields(CommonJson(t), t, ConfigJson(c), loaded);
    LoadStored(LocalJson(t, c, loaded), t, c);
  }

  // The templates that are stored come from a dialogue or from the server, and then nothing was loaded
  // from a file before: they are always read back.
  lemma StoredAnew(t: Template, c: TdkConfig)
    requires Normal(t) && NormalConfig(c)
    ensures LoadLocal(LocalJson(t, c, map[])) == Ok((t.(uuid := JNull, readme := JStr("")), c))
  {
    StoredDescriptor(t, c, map[]);
  }

  // New project descriptors carry no composite identifier and are always read back.
  lemma NewProjectDescriptor(t: Template, c: TdkConfig)
    requires Normal(t) && NormalConfig(c)
    ensures LoadLocal(LocalNewJson(t, c)) == Ok((t.(uuid := JNull, readme := JStr("")), c))
  {
    StoredDescriptor(t, c, map[]);
    assert LocalJson(t, c, map[]) == LocalNewJson(t, c);
  }
}
