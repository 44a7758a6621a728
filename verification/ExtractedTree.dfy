/** The tree that the simple reply extractor builds, and what it holds. */
module ExtractedTree {
  import opened Common
  import opened Questionnaire

  // Results are ordered dictionaries, lists and scalars. `Interpreted` stands for the Python value read
  // from an annotation text.
  datatype Val =
    | Null
    | Str(s: string)
    | Num(n: int)
    | Interpreted(text: string)
    | Dict(entries: Object)
    | List(items: seq<Val>)

  datatype Entry = Entry(key: string, val: Val)
  type Object = seq<Entry>

  // Assignment to a dictionary: an existing key keeps its place, a new one goes to the end.
  function Put(o: Object, e: Entry): Object {
    if o == [] then [e]
    else if o[0].key == e.key then [e] + o[1..]
    else [o[0]] + Put(o[1..], e)
  }

  function PutAll(o: Object, es: seq<Entry>): Object
    decreases |es|
  {
    if es == [] then o else PutAll(Put(o, es[0]), es[1..])
  }

  lemma {:induction false} PutAllAppend(o: Object, a: seq<Entry>, b: seq<Entry>)
    ensures PutAll(o, a + b) == PutAll(PutAll(o, a), b)
    decreases |a|
  {
    if a == [] {
      assert a + b == b;
    } else {
      PutAllAppend(Put(o, a[0]), a[1..], b);
      assert (a + b)[0] == a[0] && (a + b)[1..] == a[1..] + b;
    }
  }

  lemma {:induction false} PutTwice(o: Object, e: Entry, f: Entry)
    requires e.key == f.key
    ensures Put(Put(o, e), f) == Put(o, f)
  {
    if o == [] {
    } else if o[0].key == e.key {
      assert ([e] + o[1..])[1..] == o[1..];
    } else {
      PutTwice(o[1..], e, f);
      assert ([o[0]] + Put(o[1..], e))[1..] == Put(o[1..], e);
    }
  }

  lemma PutOne(o: Object, e: Entry)
    ensures PutAll(o, [e]) == Put(o, e)
  {
    assert [e][1..] == [];
  }

  function Annotated(a: Annotations, key: string): Option<string> {
    if key !in a then None
    else
      match a[key]
      case One(v) => Some(v)
      case Many(vs) => if |vs| > 0 then Some(vs[0]) else None
  }

  /******* The tree *******/

  datatype Config = Config(keyAnnotation: string, valueAnnotation: string)

  function ValueOf(cfg: Config, a: Annotations): Val {
    match Annotated(a, cfg.valueAnnotation)
    case Some(v) => Interpreted(v)
    case None => Null
  }

  function AnswerBase(cfg: Config, km: Model, answer: Uuid, path: Path): Object
    requires answer in km.answers
  {
    [Entry("_uuid", Str(answer)), Entry("_label", Str(km.answers[answer].caption)),
     Entry("_value", ValueOf(cfg, km.answers[answer].annotations)), Entry("_path", Str(path))]
  }

  function ItemBase(item: Uuid, path: Path): Object {
    [Entry("_uuid", Str(item)), Entry("_path", Str(path))]
  }

  function ChoiceVal(cfg: Config, c: Choice, path: Path): Val {
    Dict([Entry("_uuid", Str(c.uuid)), Entry("_label", Str(c.caption)),
          Entry("_value", ValueOf(cfg, c.annotations)), Entry("_path", Str(path))])
  }

  // Choices that the model knows, in the order of the reply.
  function ChoiceVals(cfg: Config, km: Model, choices: seq<Uuid>, path: Path): seq<Val> {
    if choices == [] then []
    else
      (if choices[0] in km.choices then [ChoiceVal(cfg, km.choices[choices[0]], path)] else [])
      + ChoiceVals(cfg, km, choices[1..], path)
  }

  // The value of a question without nested questions.
  function LeafVal(cfg: Config, km: Model, kind: Kind, reply: Option<Reply>, path: Path): Val {
    match kind
    case ValueQ =>
      if reply.Some? && reply.value.StringReply? then
        Dict([Entry("_value", Str(reply.value.value)), Entry("_path", Str(path))])
      else Null
    case IntegrationQ =>
      if reply.Some? && reply.value.IntegrationReply? then
        Dict([Entry("_value", Str(reply.value.text))]
             + (if reply.value.plain then [] else [Entry("_raw", Str(reply.value.raw))])
             + [Entry("_path", Str(path))])
      else Null
    case MultiChoiceQ =>
      List(if reply.Some? && reply.value.MultiChoiceReply? then ChoiceVals(cfg, km, reply.value.choices, path) else [])
    case ItemSelectQ =>
      if reply.Some? && reply.value.ItemSelectReply? then
        Dict([Entry("_uuid", Str(reply.value.item)), Entry("_label", Str(reply.value.itemTitle)),
              Entry("_path", Str(path))])
      else Null
    case FileQ =>
      if reply.Some? && reply.value.FileReply? && reply.value.file.Some? then
        var f := reply.value.file.value;
        Dict([Entry("_uuid", Str(f.uuid)), Entry("_name", Str(f.name)), Entry("_size", Num(f.size)),
              Entry("_content_type", Str(f.contentType)), Entry("_url", Str(f.url)), Entry("_path", Str(path))])
      else Null
    case OptionsQ => Null
    case ListQ(_) => List([])
  }

  // The reply that the index of a question gives for it: none if its id has a dot, since no path ends in
  // such an id.
  function Seen(replies: Replies, q: Uuid, path: Path): Option<Reply> {
    if DOT in q then None else Lookup(replies, path)
  }

  // The entries that the questions below a node contribute to the enclosing object. An annotated
  // question contributes one entry; an options question without annotation hands the entries of its
  // answer's questions up; any other question without annotation contributes nothing.
  function QuestionEntries(cfg: Config, km: Model, replies: Replies, q: Question, path: Path): seq<Entry>
    requires Linked(km) && KindLinked(km, q.kind)
    decreases Room(replies, path), 0, 0
  {
    var here := Extend(path, q.uuid);
    var key := Annotated(q.annotations, cfg.keyAnnotation);
    var reply := Seen(replies, q.uuid, here);
    if reply.Some? && q.kind.OptionsQ? && reply.value.AnswerReply? && reply.value.answer in km.answers then
      RoomUnder(replies, path, here);
      var answer := reply.value.answer;
      var nested := AllEntries(cfg, km, replies, km.answers[answer].followups, Extend(here, answer));
      if key.Some? then [Entry(key.value, Dict(PutAll(AnswerBase(cfg, km, answer, here), nested)))] else nested
    else if reply.Some? && q.kind.ListQ? && reply.value.ItemListReply? && key.Some? then
      RoomUnder(replies, path, here);
      [Entry(key.value, List(ItemVals(cfg, km, replies, q.kind.followups, reply.value.items, here)))]
    else if key.Some? then [Entry(key.value, LeafVal(cfg, km, q.kind, reply, here))]
    else []
  }

  function AllEntries(cfg: Config, km: Model, replies: Replies, questions: seq<Uuid>, path: Path): seq<Entry>
    requires Linked(km) && AllQuestions(km, questions)
    decreases Room(replies, path), 1, |questions|
  {
    if questions == [] then []
    else
      QuestionEntries(cfg, km, replies, km.questions[questions[0]], path)
      + AllEntries(cfg, km, replies, questions[1..], path)
  }

  function ItemVal(cfg: Config, km: Model, replies: Replies, followups: seq<Uuid>, item: Uuid, path: Path): Val
    requires Linked(km) && AllQuestions(km, followups) && path in replies
    decreases Room(replies, path), 0, 0
  {
    RoomShrinks(replies, path, Extend(path, item));
    Dict(PutAll(ItemBase(item, path), AllEntries(cfg, km, replies, followups, Extend(path, item))))
  }

  function ItemVals(cfg: Config, km: Model, replies: Replies, followups: seq<Uuid>, items: seq<Uuid>,
                    path: Path): seq<Val>
    requires Linked(km) && AllQuestions(km, followups) && path in replies
    decreases Room(replies, path), 0, |items|
  {
    if items == [] then []
    else
      [ItemVal(cfg, km, replies, followups, items[0], path)]
      + ItemVals(cfg, km, replies, followups, items[1..], path)
  }

  // The entries done so far and those to come, one question further.
  lemma EntriesNext(cfg: Config, km: Model, replies: Replies, questions: seq<Uuid>, i: nat, path: Path,
                    done: seq<Entry>)
    requires Linked(km) && AllQuestions(km, questions) && i < |questions|
    ensures var next := QuestionEntries(cfg, km, replies, km.questions[questions[i]], path);
            done + AllEntries(cfg, km, replies, questions[i..], path)
            == (done + next) + AllEntries(cfg, km, replies, questions[i + 1..], path)
  {
    var next := QuestionEntries(cfg, km, replies, km.questions[questions[i]], path);
    var rest := AllEntries(cfg, km, replies, questions[i + 1..], path);
    assert questions[i..][1..] == questions[i + 1..];
    assert done + (next + rest) == (done + next) + rest;
  }

  lemma ItemsNext(cfg: Config, km: Model, replies: Replies, followups: seq<Uuid>, items: seq<Uuid>, i: nat, path: Path,
                  done: seq<Val>)
    requires Linked(km) && AllQuestions(km, followups) && i < |items| && path in replies
    ensures var next := ItemVal(cfg, km, replies, followups, items[i], path);
            done + ItemVals(cfg, km, replies, followups, items[i..], path)
            == (done + [next]) + ItemVals(cfg, km, replies, followups, items[i + 1..], path)
  {
    var next := ItemVal(cfg, km, replies, followups, items[i], path);
    var rest := ItemVals(cfg, km, replies, followups, items[i + 1..], path);
    assert items[i..][1..] == items[i + 1..];
    assert done + ([next] + rest) == (done + [next]) + rest;
  }

  function ChapterEntries(cfg: Config, km: Model, replies: Replies, chapter: Chapter): seq<Entry>
    requires Linked(km) && AllQuestions(km, chapter.questions)
  {
    var nested := AllEntries(cfg, km, replies, chapter.questions, chapter.uuid);
    match Annotated(chapter.annotations, cfg.keyAnnotation)
    case Some(key) => [Entry(key, Dict(PutAll([], nested)))]
    case None => nested
  }

  function ChaptersEntries(cfg: Config, km: Model, replies: Replies, chapters: seq<Chapter>): seq<Entry>
    requires Linked(km) && forall i :: 0 <= i < |chapters| ==> AllQuestions(km, chapters[i].questions)
  {
    if chapters == [] then []
    else ChapterEntries(cfg, km, replies, chapters[0]) + ChaptersEntries(cfg, km, replies, chapters[1..])
  }

  function Tree(cfg: Config, km: Model, replies: Replies): Object
    requires Linked(km)
  {
    PutAll([], ChaptersEntries(cfg, km, replies, km.chapters))
  }

  /******* Dictionaries *******/

  ghost predicate HasKey(o: Object, k: string) {
    exists i :: 0 <= i < |o| && o[i].key == k
  }

  ghost predicate DistinctKeys(o: Object) {
    forall i, j :: 0 <= i < j < |o| ==> o[i].key != o[j].key
  }

  // The place of the last k.
  function LastAt(keys: seq<string>, k: string): (n: Option<nat>)
    ensures n.None? ==> k !in keys
    ensures n.Some? ==> n.value < |keys| && keys[n.value] == k && k !in keys[n.value + 1..]
  {
    if keys == [] then None
    else if keys[|keys| - 1] == k then Some(|keys| - 1)
    else
      assert keys == keys[..|keys| - 1] + [keys[|keys| - 1]];
      LastAt(keys[..|keys| - 1], k)
  }

  function KeysOf(es: seq<Entry>): (keys: seq<string>)
    ensures |keys| == |es| && forall i :: 0 <= i < |es| ==> keys[i] == es[i].key
  {
    seq(|es|, i requires 0 <= i < |es| => es[i].key)
  }

  // The first place of the key, or the end.
  lemma {:induction false} PutAt(o: Object, e: Entry) returns (i: nat)
    ensures i <= |o| && forall j :: 0 <= j < i ==> o[j].key != e.key
    ensures if i < |o| then o[i].key == e.key && Put(o, e) == o[i := e] else Put(o, e) == o + [e]
  {
    if o == [] || o[0].key == e.key {
      i := 0;
    } else {
      i := PutAt(o[1..], e);
      i := i + 1;
      assert o == [o[0]] + o[1..];
    }
  }

  lemma PutMeans(o: Object, e: Entry)
    requires DistinctKeys(o)
    ensures DistinctKeys(Put(o, e)) && e in Put(o, e)
    ensures forall d: Entry :: d.key != e.key ==> (d in Put(o, e) <==> d in o)
  {
    var i := PutAt(o, e);
    var p := Put(o, e);
    assert p[i] == e;
    forall d: Entry | d.key != e.key ensures d in p <==> d in o {
      if d in o {
        var j :| 0 <= j < |o| && o[j] == d;
        assert p[j] == d;
      }
    }
  }

  // An existing key keeps its place.
  lemma PutOrder(o: Object, e: Entry)
    ensures KeysOf(Put(o, e)) == if HasKey(o, e.key) then KeysOf(o) else KeysOf(o) + [e.key]
  {
    var i := PutAt(o, e);
  }

  // An object made from a base by assigning the entries one after another: each key once, the last entry
  // of a key, or else what the base has.
  ghost predicate Gathers(o: Object, base: Object, es: seq<Entry>) {
    && DistinctKeys(o)
    && (forall b :: b in base ==> HasKey(o, b.key)) && (forall n :: 0 <= n < |es| ==> HasKey(o, es[n].key))
    && forall e :: e in o ==>
         match LastAt(KeysOf(es), e.key) case None => e in base case Some(n) => e == es[n]
  }

  lemma GathersNext(o: Object, p: Object, base: Object, es: seq<Entry>, e: Entry)
    requires Gathers(o, base, es) && DistinctKeys(p) && e in p
    requires forall d: Entry :: d.key != e.key ==> (d in p <==> d in o)
    ensures Gathers(p, base, es + [e])
  {
    forall k | k == e.key || HasKey(o, k) ensures HasKey(p, k) {
      if k == e.key {
        var i :| 0 <= i < |p| && p[i] == e;
      } else {
        var i :| 0 <= i < |o| && o[i].key == k;
        assert o[i] in p;
        var j :| 0 <= j < |p| && p[j] == o[i];
      }
    }
    forall d | d in p
      ensures match LastAt(KeysOf(es + [e]), d.key) case None => d in base case Some(n) => d == (es + [e])[n]
    {
      assert KeysOf(es + [e]) == KeysOf(es) + [e.key];
      assert (KeysOf(es) + [e.key])[..|es|] == KeysOf(es);
      if d.key == e.key {
        var i :| 0 <= i < |p| && p[i] == d;
        var j :| 0 <= j < |p| && p[j] == e;
        assert i == j;
      }
    }
  }

  lemma {:induction false} PutAllGathers(base: Object, es: seq<Entry>)
    requires DistinctKeys(base)
    ensures Gathers(PutAll(base, es), base, es)
  {
    if es != [] {
      var n := |es| - 1;
      PutAllGathers(base, es[..n]);
      assert es == es[..n] + [es[n]];
      PutAllAppend(base, es[..n], [es[n]]);
      PutOne(PutAll(base, es[..n]), es[n]);
      PutMeans(PutAll(base, es[..n]), es[n]);
      GathersNext(PutAll(base, es[..n]), Put(PutAll(base, es[..n]), es[n]), base, es[..n], es[n]);
    }
  }

  /******* Where the entries of an object come from *******/

  lemma AnnotatedMeans(a: Annotations, key: string, v: string)
    ensures Annotated(a, key) == Some(v) <==>
            key in a && (a[key] == One(v) || (a[key].Many? && |a[key].values| > 0 && a[key].values[0] == v))
  {
  }

  // A question with an annotation for its key.
  predicate Keyed(cfg: Config, km: Model, s: Spot) {
    s.question in km.questions && Annotated(km.questions[s.question].annotations, cfg.keyAnnotation).Some?
  }

  function KeyAt(cfg: Config, km: Model, s: Spot): string
    requires Keyed(cfg, km, s)
  {
    Annotated(km.questions[s.question].annotations, cfg.keyAnnotation).value
  }

  // The options question s has no key, so the question t of the answer given there is handed up to the
  // object that s belongs to.
  predicate HandsUp(cfg: Config, km: Model, replies: Replies, s: Spot, t: Spot) {
    && s.question in km.questions && km.questions[s.question].kind.OptionsQ?
    && Annotated(km.questions[s.question].annotations, cfg.keyAnnotation).None?
    && var here := Extend(s.path, s.question);
       && DOT !in s.question && here in replies && replies[here].AnswerReply? && replies[here].answer in km.answers
       && t.question in km.answers[replies[here].answer].followups && t.path == Extend(here, replies[here].answer)
  }

  predicate HandTrail(cfg: Config, km: Model, replies: Replies, trail: seq<Spot>) {
    trail != [] && forall i :: 0 <= i < |trail| - 1 ==> HandsUp(cfg, km, replies, trail[i], trail[i + 1])
  }

  // The key of s goes to the object of a node with these questions: s is one of them, or handed up to it.
  ghost predicate HoistedTo(cfg: Config, km: Model, replies: Replies, questions: seq<Uuid>, path: Path, s: Spot) {
    && Keyed(cfg, km, s)
    && exists trail: seq<Spot> ::
         && HandTrail(cfg, km, replies, trail) && trail[0].question in questions && trail[0].path == path
         && trail[|trail| - 1] == s
  }

  // The questions whose keys go to the object of a node, in order.
  function Sources(cfg: Config, km: Model, replies: Replies, questions: seq<Uuid>, path: Path): (ss: seq<Spot>)
    requires Linked(km) && AllQuestions(km, questions)
    ensures forall n :: 0 <= n < |ss| ==> Keyed(cfg, km, ss[n]) && |path| <= |ss[n].path|
    decreases Room(replies, path), 1, |questions|
  {
    if questions == [] then []
    else
      SourcesAt(cfg, km, replies, Spot(questions[0], path)) + Sources(cfg, km, replies, questions[1..], path)
  }

  function SourcesAt(cfg: Config, km: Model, replies: Replies, s: Spot): (ss: seq<Spot>)
    requires Linked(km) && s.question in km.questions
    ensures forall n :: 0 <= n < |ss| ==> Keyed(cfg, km, ss[n]) && |s.path| <= |ss[n].path|
    decreases Room(replies, s.path), 0, 0
  {
    var here := Extend(s.path, s.question);
    if Keyed(cfg, km, s) then [s]
    else if km.questions[s.question].kind.OptionsQ? && DOT !in s.question && here in replies
            && replies[here].AnswerReply? && replies[here].answer in km.answers then
      RoomUnder(replies, s.path, here);
      Sources(cfg, km, replies, km.answers[replies[here].answer].followups, Extend(here, replies[here].answer))
    else []
  }

  lemma {:induction false} InSources(cfg: Config, km: Model, replies: Replies, questions: seq<Uuid>, path: Path,
                                     q: Uuid, s: Spot)
    requires Linked(km) && AllQuestions(km, questions) && q in questions
    requires s in SourcesAt(cfg, km, replies, Spot(q, path))
    ensures s in Sources(cfg, km, replies, questions, path)
    decreases |questions|
  {
    if questions[0] != q {
      InSources(cfg, km, replies, questions[1..], path, q, s);
    }
  }

  lemma {:induction false} TrailToSource(cfg: Config, km: Model, replies: Replies, trail: seq<Spot>)
    requires Linked(km) && HandTrail(cfg, km, replies, trail)
    requires trail[0].question in km.questions && Keyed(cfg, km, trail[|trail| - 1])
    ensures trail[|trail| - 1] in SourcesAt(cfg, km, replies, trail[0])
    decreases |trail|
  {
    if |trail| > 1 {
      var s, t := trail[0], trail[1];
      assert HandsUp(cfg, km, replies, s, t);
      var followups := km.answers[replies[Extend(s.path, s.question)].answer].followups;
      assert AllQuestions(km, followups);
      TrailToSource(cfg, km, replies, trail[1..]);
      InSources(cfg, km, replies, followups, t.path, t.question, trail[|trail| - 1]);
    }
  }

  lemma {:induction false} SourceToTrail(cfg: Config, km: Model, replies: Replies, questions: seq<Uuid>, path: Path,
                                         s: Spot) returns (trail: seq<Spot>)
    requires Linked(km) && AllQuestions(km, questions) && s in Sources(cfg, km, replies, questions, path)
    ensures HandTrail(cfg, km, replies, trail) && trail[|trail| - 1] == s
    ensures trail[0].question in questions && trail[0].path == path
    decreases Room(replies, path), 1, |questions|
  {
    var first := Spot(questions[0], path);
    if s in SourcesAt(cfg, km, replies, first) {
      trail := SourceAtToTrail(cfg, km, replies, first, s);
    } else {
      trail := SourceToTrail(cfg, km, replies, questions[1..], path, s);
    }
  }

  lemma {:induction false} SourceAtToTrail(cfg: Config, km: Model, replies: Replies, first: Spot, s: Spot)
    returns (trail: seq<Spot>)
    requires Linked(km) && first.question in km.questions && s in SourcesAt(cfg, km, replies, first)
    ensures HandTrail(cfg, km, replies, trail) && trail[0] == first && trail[|trail| - 1] == s
    decreases Room(replies, first.path), 0, 0
  {
    if Keyed(cfg, km, first) {
      trail := [first];
    } else {
      var here := Extend(first.path, first.question);
      var answer := replies[here].answer;
      RoomUnder(replies, first.path, here);
      trail := SourceToTrail(cfg, km, replies, km.answers[answer].followups, Extend(here, answer), s);
      assert HandsUp(cfg, km, replies, first, trail[0]);
      trail := [first] + trail;
    }
  }

  // Exactly the annotated questions that are reached through unannotated options answers only.
  lemma SourcesAreHoisted(cfg: Config, km: Model, replies: Replies, questions: seq<Uuid>, path: Path, s: Spot)
    requires Linked(km) && AllQuestions(km, questions)
    ensures s in Sources(cfg, km, replies, questions, path) <==> HoistedTo(cfg, km, replies, questions, path, s)
  {
    if s in Sources(cfg, km, replies, questions, path) {
      var trail := SourceToTrail(cfg, km, replies, questions, path, s);
    }
    if HoistedTo(cfg, km, replies, questions, path, s) {
      var trail: seq<Spot> :|
        HandTrail(cfg, km, replies, trail) && trail[0].question in questions && trail[0].path == path
        && trail[|trail| - 1] == s;
      TrailToSource(cfg, km, replies, trail);
      InSources(cfg, km, replies, questions, path, trail[0].question, s);
    }
  }

  /******* What the values are *******/

  // The dictionaries of the known choices, in order.
  ghost predicate ChoicesExplained(cfg: Config, km: Model, choices: seq<Uuid>, here: Path, vals: seq<Val>) {
    var known := Known(km, choices);
    && |vals| == |known|
    && forall i :: 0 <= i < |vals| ==>
         var c := km.choices[known[i]];
         vals[i] == Dict([Entry("_uuid", Str(c.uuid)), Entry("_label", Str(c.caption)),
                          Entry("_value", match Annotated(c.annotations, cfg.valueAnnotation)
                                          case Some(text) => Interpreted(text) case None => Null),
                          Entry("_path", Str(here))])
  }

  // The value of a question without nested questions, kind by kind.
  ghost predicate LeafExplained(cfg: Config, km: Model, replies: Replies, s: Spot, v: Val)
    requires s.question in km.questions
  {
    var here := Extend(s.path, s.question);
    var seen := DOT !in s.question && here in replies;
    match km.questions[s.question].kind
    case ValueQ =>
      v == if seen && replies[here].StringReply?
           then Dict([Entry("_value", Str(replies[here].value)), Entry("_path", Str(here))]) else Null
    case IntegrationQ =>
      v == if seen && replies[here].IntegrationReply? then
             if replies[here].plain then Dict([Entry("_value", Str(replies[here].text)), Entry("_path", Str(here))])
             else Dict([Entry("_value", Str(replies[here].text)), Entry("_raw", Str(replies[here].raw)),
                        Entry("_path", Str(here))])
           else Null
    case MultiChoiceQ =>
      v.List? && if seen && replies[here].MultiChoiceReply?
                 then ChoicesExplained(cfg, km, replies[here].choices, here, v.items) else v.items == []
    case ItemSelectQ =>
      v == if seen && replies[here].ItemSelectReply?
           then Dict([Entry("_uuid", Str(replies[here].item)), Entry("_label", Str(replies[here].itemTitle)),
                      Entry("_path", Str(here))]) else Null
    case FileQ =>
      if seen && replies[here].FileReply? && replies[here].file.Some? then
        var f := replies[here].file.value;
        v == Dict([Entry("_uuid", Str(f.uuid)), Entry("_name", Str(f.name)), Entry("_size", Num(f.size)),
                   Entry("_content_type", Str(f.contentType)), Entry("_url", Str(f.url)), Entry("_path", Str(here))])
      else v == Null
    case OptionsQ => v == Null
    case ListQ(_) => v == List([])
  }

  // The value of an annotated question: the object of the chosen answer, one object for each item of the
  // list, in order, or the value of its kind.
  ghost predicate Explained(cfg: Config, km: Model, replies: Replies, s: Spot, v: Val)
    requires Linked(km) && s.question in km.questions
    decreases Room(replies, s.path), 0
  {
    var here, kind := Extend(s.path, s.question), km.questions[s.question].kind;
    var seen := DOT !in s.question && here in replies;
    if kind.OptionsQ? && seen && replies[here].AnswerReply? && replies[here].answer in km.answers then
      RoomUnder(replies, s.path, here);
      var answer := km.answers[replies[here].answer];
      && v.Dict?
      && ObjectOf(cfg, km, replies, v.entries,
                  [Entry("_uuid", Str(replies[here].answer)), Entry("_label", Str(answer.caption)),
                   Entry("_value", match Annotated(answer.annotations, cfg.valueAnnotation)
                                   case Some(text) => Interpreted(text) case None => Null),
                   Entry("_path", Str(here))],
                  answer.followups, Extend(here, replies[here].answer))
    else if kind.ListQ? && seen && replies[here].ItemListReply? then
      RoomUnder(replies, s.path, here);
      && v.List? && |v.items| == |replies[here].items|
      && forall i :: 0 <= i < |v.items| ==>
           var item := replies[here].items[i];
           && v.items[i].Dict?
           && ObjectOf(cfg, km, replies, v.items[i].entries,
                       [Entry("_uuid", Str(item)), Entry("_path", Str(here))], kind.followups, Extend(here, item))
    else LeafExplained(cfg, km, replies, s, v)
  }

  // An object has the keys of its base and of the questions hoisted to its node, each once; the value of
  // a key is that of the last such question, or else the one of the base.
  ghost predicate ObjectOf(cfg: Config, km: Model, replies: Replies, o: Object, base: Object, questions: seq<Uuid>,
                           path: Path)
    requires Linked(km) && AllQuestions(km, questions)
    decreases Room(replies, path), 1
  {
    var ss := Sources(cfg, km, replies, questions, path);
    && DistinctKeys(o)
    && (forall b :: b in base ==> HasKey(o, b.key))
    && (forall n :: 0 <= n < |ss| ==> HasKey(o, KeyAt(cfg, km, ss[n])))
    && forall e :: e in o ==>
         match LastAt(KeysAt(cfg, km, ss), e.key)
         case None => e in base
         case Some(n) =>
           RoomShrinks(replies, path, ss[n].path);
           Explained(cfg, km, replies, ss[n], e.val)
  }

  function KeysAt(cfg: Config, km: Model, ss: seq<Spot>): (keys: seq<string>)
    requires forall n :: 0 <= n < |ss| ==> Keyed(cfg, km, ss[n])
    ensures |keys| == |ss| && forall n :: 0 <= n < |ss| ==> keys[n] == KeyAt(cfg, km, ss[n])
  {
    seq(|ss|, n requires 0 <= n < |ss| => KeyAt(cfg, km, ss[n]))
  }

  // The entries belong to the sources, one to one and in order.
  ghost predicate EntriesOf(cfg: Config, km: Model, replies: Replies, es: seq<Entry>, ss: seq<Spot>)
    requires Linked(km) && forall n :: 0 <= n < |ss| ==> Keyed(cfg, km, ss[n])
  {
    && |es| == |ss|
    && forall n :: 0 <= n < |es| ==>
         es[n].key == KeyAt(cfg, km, ss[n]) && Explained(cfg, km, replies, ss[n], es[n].val)
  }

  lemma {:induction false} ChoiceValsExplained(cfg: Config, km: Model, choices: seq<Uuid>, here: Path)
    ensures ChoicesExplained(cfg, km, choices, here, ChoiceVals(cfg, km, choices, here))
  {
    if choices != [] {
      ChoiceValsExplained(cfg, km, choices[1..], here);
    }
  }

  lemma LeafValExplained(cfg: Config, km: Model, replies: Replies, s: Spot)
    requires s.question in km.questions
    ensures var here := Extend(s.path, s.question);
            LeafExplained(cfg, km, replies, s,
                          LeafVal(cfg, km, km.questions[s.question].kind, Seen(replies, s.question, here), here))
  {
    var here := Extend(s.path, s.question);
    if here in replies && replies[here].MultiChoiceReply? {
      ChoiceValsExplained(cfg, km, replies[here].choices, here);
    }
  }

  lemma {:induction false} AllExplained(cfg: Config, km: Model, replies: Replies, questions: seq<Uuid>, path: Path)
    requires Linked(km) && AllQuestions(km, questions)
    ensures EntriesOf(cfg, km, replies, AllEntries(cfg, km, replies, questions, path),
                      Sources(cfg, km, replies, questions, path))
    decreases Room(replies, path), 1, |questions|
  {
    if questions != [] {
      QuestionExplained(cfg, km, replies, Spot(questions[0], path));
      AllExplained(cfg, km, replies, questions[1..], path);
    }
  }

  lemma {:induction false} QuestionExplained(cfg: Config, km: Model, replies: Replies, s: Spot)
    requires Linked(km) && s.question in km.questions
    ensures EntriesOf(cfg, km, replies, QuestionEntries(cfg, km, replies, km.questions[s.question], s.path),
                      SourcesAt(cfg, km, replies, s))
    decreases Room(replies, s.path), 0, 0
  {
    var here, q := Extend(s.path, s.question), km.questions[s.question];
    var reply := Seen(replies, s.question, here);
    if reply.Some? && q.kind.OptionsQ? && reply.value.AnswerReply? && reply.value.answer in km.answers {
      RoomUnder(replies, s.path, here);
      var answer := reply.value.answer;
      var base, followups := AnswerBase(cfg, km, answer, here), km.answers[answer].followups;
      if Keyed(cfg, km, s) {
        ObjectExplained(cfg, km, replies, base, followups, Extend(here, answer));
        AnswerExplained(cfg, km, replies, s,
                        PutAll(base, AllEntries(cfg, km, replies, followups, Extend(here, answer))));
      } else {
        AllExplained(cfg, km, replies, followups, Extend(here, answer));
      }
    } else if reply.Some? && q.kind.ListQ? && reply.value.ItemListReply? {
      if Keyed(cfg, km, s) {
        RoomUnder(replies, s.path, here);
        ItemsExplained(cfg, km, replies, q.kind.followups, reply.value.items, here);
      }
    } else {
      LeafValExplained(cfg, km, replies, s);
    }
  }

  lemma AnswerExplained(cfg: Config, km: Model, replies: Replies, s: Spot, o: Object)
    requires Linked(km) && s.question in km.questions && km.questions[s.question].kind.OptionsQ?
    requires var here := Extend(s.path, s.question);
             DOT !in s.question && here in replies && replies[here].AnswerReply? && replies[here].answer in km.answers
    requires var here := Extend(s.path, s.question);
             var answer := replies[here].answer;
             ObjectOf(cfg, km, replies, o, AnswerBase(cfg, km, answer, here), km.answers[answer].followups,
                      Extend(here, answer))
    ensures Explained(cfg, km, replies, s, Dict(o))
  {
  }

  lemma {:induction false} ItemsExplained(cfg: Config, km: Model, replies: Replies, followups: seq<Uuid>,
                                          items: seq<Uuid>, here: Path)
    requires Linked(km) && AllQuestions(km, followups) && here in replies
    ensures var vals := ItemVals(cfg, km, replies, followups, items, here);
            && |vals| == |items|
            && forall i :: 0 <= i < |vals| ==>
                 && vals[i].Dict?
                 && ObjectOf(cfg, km, replies, vals[i].entries,
                             [Entry("_uuid", Str(items[i])), Entry("_path", Str(here))], followups,
                             Extend(here, items[i]))
    decreases Room(replies, here), 0, |items|
  {
    if items != [] {
      RoomShrinks(replies, here, Extend(here, items[0]));
      ObjectExplained(cfg, km, replies, ItemBase(items[0], here), followups, Extend(here, items[0]));
      ItemsExplained(cfg, km, replies, followups, items[1..], here);
      var val := ItemVal(cfg, km, replies, followups, items[0], here);
      assert ItemVals(cfg, km, replies, followups, items, here)
          == [val] + ItemVals(cfg, km, replies, followups, items[1..], here);
      assert val.Dict?;
    }
  }

  lemma {:induction false} ObjectExplained(cfg: Config, km: Model, replies: Replies, base: Object,
                                           questions: seq<Uuid>, path: Path)
    requires Linked(km) && AllQuestions(km, questions) && DistinctKeys(base)
    ensures ObjectOf(cfg, km, replies, PutAll(base, AllEntries(cfg, km, replies, questions, path)), base, questions,
                     path)
    decreases Room(replies, path), 2, 0
  {
    AllExplained(cfg, km, replies, questions, path);
    var es, ss := AllEntries(cfg, km, replies, questions, path), Sources(cfg, km, replies, questions, path);
    PutAllGathers(base, es);
    assert KeysOf(es) == KeysAt(cfg, km, ss);
  }

  lemma KeysFrom(cfg: Config, km: Model, replies: Replies, o: Object, base: Object, questions: seq<Uuid>, path: Path,
                 k: string)
    requires Linked(km) && AllQuestions(km, questions) && ObjectOf(cfg, km, replies, o, base, questions, path)
    ensures HasKey(o, k) <==> HasKey(base, k) || k in KeysAt(cfg, km, Sources(cfg, km, replies, questions, path))
  {
    if HasKey(o, k) {
      var i :| 0 <= i < |o| && o[i].key == k;
      assert o[i] in o;
      if o[i] in base {
        var j :| 0 <= j < |base| && base[j] == o[i];
      }
    }
    if HasKey(base, k) {
      var i :| 0 <= i < |base| && base[i].key == k;
      assert base[i] in base;
    }
  }

  lemma SourceKeysAreHoisted(cfg: Config, km: Model, replies: Replies, questions: seq<Uuid>, path: Path, k: string)
    requires Linked(km) && AllQuestions(km, questions)
    ensures k in KeysAt(cfg, km, Sources(cfg, km, replies, questions, path)) <==>
            exists s :: HoistedTo(cfg, km, replies, questions, path, s) && KeyAt(cfg, km, s) == k
  {
    var ss := Sources(cfg, km, replies, questions, path);
    if n :| 0 <= n < |ss| && KeysAt(cfg, km, ss)[n] == k {
      SourcesAreHoisted(cfg, km, replies, questions, path, ss[n]);
    }
    if s :| HoistedTo(cfg, km, replies, questions, path, s) && KeyAt(cfg, km, s) == k {
      SourcesAreHoisted(cfg, km, replies, questions, path, s);
      var n :| 0 <= n < |ss| && ss[n] == s;
      assert KeysAt(cfg, km, ss)[n] == k;
    }
  }

  // An object of a node has exactly the keys of its base and of the questions hoisted to the node.
  lemma ObjectKeys(cfg: Config, km: Model, replies: Replies, o: Object, base: Object, questions: seq<Uuid>, path: Path,
                   k: string)
    requires Linked(km) && AllQuestions(km, questions) && ObjectOf(cfg, km, replies, o, base, questions, path)
    ensures HasKey(o, k) <==>
            || HasKey(base, k)
            || exists s :: HoistedTo(cfg, km, replies, questions, path, s) && KeyAt(cfg, km, s) == k
  {
    KeysFrom(cfg, km, replies, o, base, questions, path, k);
    SourceKeysAreHoisted(cfg, km, replies, questions, path, k);
  }

  /******* The root object *******/

  // What a key of the root object comes from: a chapter, or a question of a chapter without a key.
  datatype Source = OfChapter(chapter: Chapter) | OfQuestion(spot: Spot)

  function SourceKey(cfg: Config, km: Model, src: Source): Option<string> {
    match src
    case OfChapter(c) => Annotated(c.annotations, cfg.keyAnnotation)
    case OfQuestion(s) => if Keyed(cfg, km, s) then Some(KeyAt(cfg, km, s)) else None
  }

  function OfQuestions(ss: seq<Spot>): (srcs: seq<Source>)
    ensures |srcs| == |ss| && forall n :: 0 <= n < |ss| ==> srcs[n] == OfQuestion(ss[n])
  {
    seq(|ss|, n requires 0 <= n < |ss| => OfQuestion(ss[n]))
  }

  function ChapterSources(cfg: Config, km: Model, replies: Replies, c: Chapter): (srcs: seq<Source>)
    requires Linked(km) && AllQuestions(km, c.questions)
    ensures forall n :: 0 <= n < |srcs| ==> SourceKey(cfg, km, srcs[n]).Some?
  {
    if Annotated(c.annotations, cfg.keyAnnotation).Some? then [OfChapter(c)]
    else OfQuestions(Sources(cfg, km, replies, c.questions, c.uuid))
  }

  function RootSources(cfg: Config, km: Model, replies: Replies, chapters: seq<Chapter>): (srcs: seq<Source>)
    requires Linked(km) && forall i :: 0 <= i < |chapters| ==> AllQuestions(km, chapters[i].questions)
    ensures forall n :: 0 <= n < |srcs| ==> SourceKey(cfg, km, srcs[n]).Some?
  {
    if chapters == [] then []
    else ChapterSources(cfg, km, replies, chapters[0]) + RootSources(cfg, km, replies, chapters[1..])
  }

  function SourceKeys(cfg: Config, km: Model, srcs: seq<Source>): (keys: seq<string>)
    requires forall n :: 0 <= n < |srcs| ==> SourceKey(cfg, km, srcs[n]).Some?
    ensures |keys| == |srcs| && forall n :: 0 <= n < |srcs| ==> Some(keys[n]) == SourceKey(cfg, km, srcs[n])
  {
    seq(|srcs|, n requires 0 <= n < |srcs| => SourceKey(cfg, km, srcs[n]).value)
  }

  // The object of a chapter has what is hoisted to it, and the value of a question is explained.
  ghost predicate SourceExplained(cfg: Config, km: Model, replies: Replies, src: Source, v: Val)
    requires Linked(km)
  {
    match src
    case OfChapter(c) =>
      AllQuestions(km, c.questions) && v.Dict? && ObjectOf(cfg, km, replies, v.entries, [], c.questions, c.uuid)
    case OfQuestion(s) => Keyed(cfg, km, s) && Explained(cfg, km, replies, s, v)
  }

  ghost predicate SourcesExplained(cfg: Config, km: Model, replies: Replies, es: seq<Entry>, srcs: seq<Source>)
    requires Linked(km)
  {
    && |es| == |srcs|
    && forall n :: 0 <= n < |es| ==>
         SourceKey(cfg, km, srcs[n]) == Some(es[n].key) && SourceExplained(cfg, km, replies, srcs[n], es[n].val)
  }

  // The root object has the key of every source once, with the value of the last source of that key.
  ghost predicate RootExplained(cfg: Config, km: Model, replies: Replies, o: Object)
    requires Linked(km)
  {
    var srcs := RootSources(cfg, km, replies, km.chapters);
    && DistinctKeys(o)
    && (forall n :: 0 <= n < |srcs| ==> HasKey(o, SourceKey(cfg, km, srcs[n]).value))
    && forall e :: e in o ==>
         var n := LastAt(SourceKeys(cfg, km, srcs), e.key);
         n.Some? && SourceExplained(cfg, km, replies, srcs[n.value], e.val)
  }

  lemma ChapterExplained(cfg: Config, km: Model, replies: Replies, c: Chapter)
    requires Linked(km) && AllQuestions(km, c.questions)
    ensures SourcesExplained(cfg, km, replies, ChapterEntries(cfg, km, replies, c), ChapterSources(cfg, km, replies, c))
  {
    if Annotated(c.annotations, cfg.keyAnnotation).Some? {
      ObjectExplained(cfg, km, replies, [], c.questions, c.uuid);
    } else {
      AllExplained(cfg, km, replies, c.questions, c.uuid);
    }
  }

  lemma {:induction false} ChaptersExplained(cfg: Config, km: Model, replies: Replies, chapters: seq<Chapter>)
    requires Linked(km) && forall i :: 0 <= i < |chapters| ==> AllQuestions(km, chapters[i].questions)
    ensures SourcesExplained(cfg, km, replies, ChaptersEntries(cfg, km, replies, chapters),
                             RootSources(cfg, km, replies, chapters))
  {
    if chapters != [] {
      ChapterExplained(cfg, km, replies, chapters[0]);
      ChaptersExplained(cfg, km, replies, chapters[1..]);
      ExplainedAppend(cfg, km, replies, ChapterEntries(cfg, km, replies, chapters[0]),
                      ChapterSources(cfg, km, replies, chapters[0]), ChaptersEntries(cfg, km, replies, chapters[1..]),
                      RootSources(cfg, km, replies, chapters[1..]));
    }
  }

  lemma ExplainedAppend(cfg: Config, km: Model, replies: Replies, es: seq<Entry>, srcs: seq<Source>,
                        fs: seq<Entry>, more: seq<Source>)
    requires Linked(km)
    requires SourcesExplained(cfg, km, replies, es, srcs) && SourcesExplained(cfg, km, replies, fs, more)
    ensures SourcesExplained(cfg, km, replies, es + fs, srcs + more)
  {
  }

  lemma TreeExplained(cfg: Config, km: Model, replies: Replies)
    requires Linked(km)
    ensures RootExplained(cfg, km, replies, Tree(cfg, km, replies))
  {
    var es, srcs := ChaptersEntries(cfg, km, replies, km.chapters), RootSources(cfg, km, replies, km.chapters);
    ChaptersExplained(cfg, km, replies, km.chapters);
    PutAllGathers([], es);
    assert KeysOf(es) == SourceKeys(cfg, km, srcs);
  }

  lemma RootKeysFrom(cfg: Config, km: Model, replies: Replies, o: Object, k: string)
    requires Linked(km) && RootExplained(cfg, km, replies, o)
    ensures HasKey(o, k) <==> k in SourceKeys(cfg, km, RootSources(cfg, km, replies, km.chapters))
  {
    var srcs := RootSources(cfg, km, replies, km.chapters);
    if HasKey(o, k) {
      var i :| 0 <= i < |o| && o[i].key == k;
      assert o[i] in o;
    }
    if n :| 0 <= n < |srcs| && SourceKeys(cfg, km, srcs)[n] == k {
      assert SourceKey(cfg, km, srcs[n]) == Some(k);
    }
  }

  // The chapter c has the key for the root object, itself or from one of its questions.
  ghost predicate GivesKey(cfg: Config, km: Model, replies: Replies, c: Chapter, k: string) {
    match Annotated(c.annotations, cfg.keyAnnotation)
    case Some(own) => own == k
    case None => exists s :: HoistedTo(cfg, km, replies, c.questions, c.uuid, s) && KeyAt(cfg, km, s) == k
  }

  lemma ChapterKeys(cfg: Config, km: Model, replies: Replies, c: Chapter, k: string)
    requires Linked(km) && AllQuestions(km, c.questions)
    ensures k in SourceKeys(cfg, km, ChapterSources(cfg, km, replies, c)) <==> GivesKey(cfg, km, replies, c, k)
  {
    var srcs := ChapterSources(cfg, km, replies, c);
    if Annotated(c.annotations, cfg.keyAnnotation).None? {
      SourceKeysAreHoisted(cfg, km, replies, c.questions, c.uuid, k);
      assert SourceKeys(cfg, km, srcs) == KeysAt(cfg, km, Sources(cfg, km, replies, c.questions, c.uuid));
    } else {
      assert SourceKeys(cfg, km, srcs)[0] == Annotated(c.annotations, cfg.keyAnnotation).value;
    }
  }

  lemma {:induction false} ChaptersKeys(cfg: Config, km: Model, replies: Replies, chapters: seq<Chapter>, k: string)
    requires Linked(km) && forall i :: 0 <= i < |chapters| ==> AllQuestions(km, chapters[i].questions)
    ensures k in SourceKeys(cfg, km, RootSources(cfg, km, replies, chapters)) <==>
            exists c :: c in chapters && GivesKey(cfg, km, replies, c, k)
  {
    if chapters != [] {
      ChapterKeys(cfg, km, replies, chapters[0], k);
      ChaptersKeys(cfg, km, replies, chapters[1..], k);
      KeysAppend(cfg, km, ChapterSources(cfg, km, replies, chapters[0]),
                 RootSources(cfg, km, replies, chapters[1..]), k);
      if c :| c in chapters && GivesKey(cfg, km, replies, c, k) {
        assert c == chapters[0] || c in chapters[1..];
      }
    }
  }

  lemma KeysAppend(cfg: Config, km: Model, a: seq<Source>, b: seq<Source>, k: string)
    requires forall n :: 0 <= n < |a| ==> SourceKey(cfg, km, a[n]).Some?
    requires forall n :: 0 <= n < |b| ==> SourceKey(cfg, km, b[n]).Some?
    ensures k in SourceKeys(cfg, km, a + b) <==> k in SourceKeys(cfg, km, a) || k in SourceKeys(cfg, km, b)
  {
    assert SourceKeys(cfg, km, a + b) == SourceKeys(cfg, km, a) + SourceKeys(cfg, km, b);
  }

  // A key is there exactly when an annotated chapter has it, or a question that is hoisted from a chapter
  // without one.
  lemma RootKeys(cfg: Config, km: Model, replies: Replies, o: Object, k: string)
    requires Linked(km) && RootExplained(cfg, km, replies, o)
    ensures HasKey(o, k) <==>
            exists c :: c in km.chapters && GivesKey(cfg, km, replies, c, k)
  {
    RootKeysFrom(cfg, km, replies, o, k);
    ChaptersKeys(cfg, km, replies, km.chapters, k);
  }
}
