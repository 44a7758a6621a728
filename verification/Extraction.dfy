/** The simple reply extractor: one pass over the linked questions that fills a flat dictionary of
    objects under construction, against the tree it is meant to build. */
module Extraction {
  import opened Common
  import opened Questionnaire
  import opened ExtractedTree

  const ROOT: string := "root"

  lemma IndexSees(index: map<Uuid, Replies>, km: Model, replies: Replies, q: Uuid, parent: Path)
    requires Matches(index, km.questions, replies) && q in km.questions
    ensures Lookup(index[q], Extend(parent, q)) == Seen(replies, q, Extend(parent, q))
  {
    LastFragmentOfExtend(parent, q);
  }

  predicate TakesRoot(cfg: Config, chapter: Chapter) {
    chapter.uuid == ROOT && Annotated(chapter.annotations, cfg.keyAnnotation).Some?
  }

  type Objects = map<string, Object>

  // Visiting below `path` on behalf of `key` adds these entries to the object of `key`; apart from it
  // only objects whose keys lie strictly below `path` may have been created or replaced.
  ghost predicate Contributed(before: Objects, after: Objects, key: string, path: Path, entries: seq<Entry>) {
    && key in before && key in after && after[key] == PutAll(before[key], entries)
    && (forall k :: k in before ==> k in after)
    && (forall k :: k in after && k != key && !Extends(k, path) ==> k in before && after[k] == before[k])
  }

  lemma ContributedNothing(before: Objects, key: string, path: Path)
    requires key in before
    ensures Contributed(before, before, key, path, [])
  {
  }

  lemma ContributedAppend(a: Objects, b: Objects, c: Objects, key: string, path: Path, e: seq<Entry>, f: seq<Entry>)
    requires Contributed(a, b, key, path, e) && Contributed(b, c, key, path, f)
    ensures Contributed(a, c, key, path, e + f)
  {
    PutAllAppend(a[key], e, f);
  }

  lemma ContributedBelow(a: Objects, b: Objects, key: string, path: Path, fragment: string, e: seq<Entry>)
    requires Contributed(a, b, key, Extend(path, fragment), e)
    ensures Contributed(a, b, key, path, e)
  {
    forall k | Extends(k, Extend(path, fragment)) ensures Extends(k, path) {
      ExtendsChain(path, fragment, k);
    }
  }

  // A visit with an object of its own leaves the enclosing object alone.
  lemma ContributedInside(a: Objects, b: Objects, key: string, own: string, path: Path, e: seq<Entry>)
    requires Extends(own, path) && !Extends(key, path) && key in a
    requires Contributed(a, b, own, own, e)
    ensures key in b && b[key] == a[key]
    ensures Contributed(a, b, key, path, [])
  {
    assert key != own;
    forall k | Extends(k, own) ensures Extends(k, path) {
      assert path + [DOT] <= own <= k;
    }
  }

  lemma BelowHasDot(key: string, path: Path)
    requires Extends(key, path)
    ensures DOT in key
  {
    assert key[|path|] == DOT;
  }

  // The key of the root object has no dot, so it lies below no path.
  lemma RootOutside(path: Path)
    ensures !Extends(ROOT, path)
  {
    if Extends(ROOT, path) {
      BelowHasDot(ROOT, path);
    }
  }

  class SimpleExtractor {
    const cfg: Config
    const km: Model
    const index: map<Uuid, Replies>  // the replies linked to each question
    var objects: Objects

    constructor (cfg: Config, km: Model, index: map<Uuid, Replies>)
      ensures this.cfg == cfg && this.km == km && this.index == index && objects == map[]
    {
      this.cfg, this.km, this.index, this.objects := cfg, km, index, map[];
    }

    // All links are resolved, those of the replies too.
    ghost predicate Ready(replies: Replies) {
      Linked(km) && Matches(index, km.questions, replies)
    }

    method Assign(key: string, name: string, val: Val)
      requires key in objects
      modifies this`objects
      ensures forall path :: Contributed(old(objects), objects, key, path, [Entry(name, val)])
    {
      PutOne(objects[key], Entry(name, val));
      objects := objects[key := Put(objects[key], Entry(name, val))];
    }

    method VisitQuestions(key: string, questions: seq<Uuid>, path: Path, ghost replies: Replies)
      requires Ready(replies) && AllQuestions(km, questions) && key in objects && !Extends(key, path)
      modifies this`objects
      ensures Contributed(old(objects), objects, key, path, AllEntries(cfg, km, replies, questions, path))
      decreases Room(replies, path), 1, |questions|
    {
      ghost var before := objects;
      ghost var done: seq<Entry> := [];
      ContributedNothing(objects, key, path);
      for i := 0 to |questions|
        invariant key in objects && Contributed(before, objects, key, path, done)
        invariant AllEntries(cfg, km, replies, questions, path)
                == done + AllEntries(cfg, km, replies, questions[i..], path)
      {
        ghost var previous := objects;
        ghost var entries := QuestionEntries(cfg, km, replies, km.questions[questions[i]], path);
        VisitQuestion(key, km.questions[questions[i]], path, replies);
        ContributedAppend(before, previous, objects, key, path, done, entries);
        EntriesNext(cfg, km, replies, questions, i, path, done);
        done := done + entries;
      }
      assert questions[|questions|..] == [] && done + [] == done;
    }

    method VisitQuestion(key: string, q: Question, path: Path, ghost replies: Replies)
      requires Ready(replies) && q.uuid in km.questions && km.questions[q.uuid] == q
      requires key in objects && !Extends(key, path)
      modifies this`objects
      ensures Contributed(old(objects), objects, key, path, QuestionEntries(cfg, km, replies, q, path))
      decreases Room(replies, path), 0, 1
    {
      var here := Extend(path, q.uuid);
      var name := Annotated(q.annotations, cfg.keyAnnotation);
      IndexSees(index, km, replies, q.uuid, path);
      var reply := Lookup(index[q.uuid], here);
      if reply.Some? {
        RoomUnder(replies, path, here);
      }
      match q.kind
      case OptionsQ =>
        VisitOptions(key, q, here, name, reply, path, replies);
      case ListQ(followups) =>
        if name.Some? {
          VisitList(key, followups, here, name.value, reply, path, replies);
        } else {
          ContributedNothing(objects, key, path);
        }
      case _ =>
        if name.Some? {
          Assign(key, name.value, LeafVal(cfg, km, q.kind, reply, here));
        } else {
          ContributedNothing(objects, key, path);
        }
    }

    method VisitOptions(key: string, q: Question, here: Path, name: Option<string>, reply: Option<Reply>,
                        ghost path: Path, ghost replies: Replies)
      requires Ready(replies) && q.kind.OptionsQ? && key in objects && !Extends(key, path)
      requires here == Extend(path, q.uuid) && name == Annotated(q.annotations, cfg.keyAnnotation)
      requires reply == Seen(replies, q.uuid, here)
      requires reply.Some? ==> Room(replies, here) < Room(replies, path)
      modifies this`objects
      ensures Contributed(old(objects), objects, key, path, QuestionEntries(cfg, km, replies, q, path))
      decreases if reply.Some? then Room(replies, here) + 1 else 0, 0, 0
    {
      ghost var before := objects;
      if reply.Some? && reply.value.AnswerReply? && reply.value.answer in km.answers {
        var answer := reply.value.answer;
        var answerPath := Extend(here, answer);
        RoomShrinks(replies, here, answerPath);
        ExtendsChain(path, q.uuid, answerPath);
        ExtendsChain(here, answer, key);
        ExtendsChain(path, q.uuid, key);
        ghost var nested := AllEntries(cfg, km, replies, km.answers[answer].followups, answerPath);
        if name.Some? {
          objects := objects[answerPath := AnswerBase(cfg, km, answer, here)];
          ghost var started := objects;
          VisitQuestions(answerPath, km.answers[answer].followups, answerPath, replies);
          ContributedInside(started, objects, key, answerPath, path, nested);
          ghost var closed := objects;
          Assign(key, name.value, Dict(objects[answerPath]));
          ContributedAppend(started, closed, objects, key, path, [], [Entry(name.value, Dict(closed[answerPath]))]);
        } else {
          VisitQuestions(key, km.answers[answer].followups, answerPath, replies);
          ContributedBelow(before, objects, key, here, answer, nested);
          ContributedBelow(before, objects, key, path, q.uuid, nested);
        }
      } else if name.Some? {
        Assign(key, name.value, Null);
      } else {
        ContributedNothing(objects, key, path);
      }
    }

    method VisitList(key: string, followups: seq<Uuid>, here: Path, name: string, reply: Option<Reply>,
                     ghost path: Path, ghost replies: Replies)
      requires Ready(replies) && AllQuestions(km, followups) && key in objects && !Extends(key, path)
      requires Extends(here, path) && (reply.Some? ==> here in replies)
      requires reply.Some? ==> Room(replies, here) < Room(replies, path)
      modifies this`objects
      ensures Contributed(old(objects), objects, key, path,
                [Entry(name, List(if reply.Some? && reply.value.ItemListReply?
                                  then ItemVals(cfg, km, replies, followups, reply.value.items, here) else []))])
      decreases if reply.Some? then Room(replies, here) + 1 else 0, 0, 0
    {
      ghost var before := objects;
      Assign(key, name, List([]));
      if reply.Some? && reply.value.ItemListReply? {
        var items := reply.value.items;
        var vals: seq<Val> := [];
        for i := 0 to |items|
          invariant Contributed(before, objects, key, path, [Entry(name, List(vals))])
          invariant ItemVals(cfg, km, replies, followups, items, here)
                    == vals + ItemVals(cfg, km, replies, followups, items[i..], here)
        {
          ItemsNext(cfg, km, replies, followups, items, i, here, vals);
          vals := AddItem(key, name, followups, items[i], vals, here, before, path, replies);
        }
        assert items[|items|..] == [] && vals + [] == vals;
      }
    }

    // Appends the object of one more item to the list under `name`.
    method AddItem(key: string, name: string, followups: seq<Uuid>, item: Uuid, vals: seq<Val>, here: Path,
                   ghost before: Objects, ghost path: Path, ghost replies: Replies)
      returns (more: seq<Val>)
      requires Ready(replies) && AllQuestions(km, followups) && key in objects && !Extends(key, path)
      requires Extends(here, path) && here in replies
      requires Contributed(before, objects, key, path, [Entry(name, List(vals))])
      modifies this`objects
      ensures more == vals + [ItemVal(cfg, km, replies, followups, item, here)]
      ensures Contributed(before, objects, key, path, [Entry(name, List(more))])
      decreases Room(replies, here), 3, 0
    {
      ghost var previous := objects;
      var val := VisitItem(key, followups, item, here, path, replies);
      ContributedAppend(before, previous, objects, key, path, [Entry(name, List(vals))], []);
      assert [Entry(name, List(vals))] + [] == [Entry(name, List(vals))];
      Replace(key, name, List(vals), List(vals + [val]), before, path);
      more := vals + [val];
    }

    // Builds the object of one list item under a key of its own.
    method VisitItem(ghost key: string, followups: seq<Uuid>, item: Uuid, here: Path, ghost path: Path,
                     ghost replies: Replies)
      returns (val: Val)
      requires Ready(replies) && AllQuestions(km, followups) && key in objects && !Extends(key, path)
      requires Extends(here, path) && here in replies
      modifies this`objects
      ensures val == ItemVal(cfg, km, replies, followups, item, here)
      ensures Contributed(old(objects), objects, key, path, [])
      decreases Room(replies, here), 2, 0
    {
      var itemPath := Extend(here, item);
      RoomShrinks(replies, here, itemPath);
      assert Extends(itemPath, path) by {
        assert path + [DOT] <= here <= itemPath;
      }
      ghost var before := objects;
      objects := objects[itemPath := ItemBase(item, here)];
      ghost var started := objects;
      VisitQuestions(itemPath, followups, itemPath, replies);
      ContributedInside(started, objects, key, itemPath, path, AllEntries(cfg, km, replies, followups, itemPath));
      val := Dict(objects[itemPath]);
    }

    // The value just assigned under `name` is replaced in place.
    method Replace(key: string, name: string, ghost val: Val, newVal: Val, ghost before: Objects, ghost path: Path)
      requires Contributed(before, objects, key, path, [Entry(name, val)])
      modifies this`objects
      ensures Contributed(before, objects, key, path, [Entry(name, newVal)])
    {
      PutOne(before[key], Entry(name, val));
      PutOne(before[key], Entry(name, newVal));
      PutTwice(before[key], Entry(name, val), Entry(name, newVal));
      objects := objects[key := Put(objects[key], Entry(name, newVal))];
    }

    // Looks the root object up where the code does; `ok` says whether it was there. It is gone for good
    // after an annotated chapter has put its own object under the root key and removed it again. (Without
    // it a chapter that has no entries at all would pass here, and the lookup at the end would fail.)
    method VisitChapter(chapter: Chapter, ghost replies: Replies) returns (ok: bool)
      requires Ready(replies) && AllQuestions(km, chapter.questions)
      modifies this`objects
      ensures !ok ==> ROOT !in old(objects)
      ensures ok && ROOT in objects ==> ROOT in old(objects) && !TakesRoot(cfg, chapter)
      ensures ROOT in old(objects) && !TakesRoot(cfg, chapter) ==>
                && ROOT in objects
                && objects[ROOT] == PutAll(old(objects)[ROOT], ChapterEntries(cfg, km, replies, chapter))
    {
      var name := Annotated(chapter.annotations, cfg.keyAnnotation);
      RootOutside(chapter.uuid);
      if name.Some? {
        objects := objects[chapter.uuid := []];
        VisitQuestions(chapter.uuid, chapter.questions, chapter.uuid, replies);
        ghost var before := objects;
        if ROOT !in objects {
          return false;
        }
        Assign(ROOT, name.value, Dict(objects[chapter.uuid]));
        assert Contributed(before, objects, ROOT, ROOT, [Entry(name.value, Dict(before[chapter.uuid]))]);
        objects := objects - {chapter.uuid};
      } else {
        if ROOT !in objects {
          return false;
        }
        VisitQuestions(ROOT, chapter.questions, chapter.uuid, replies);
      }
      ok := true;
    }

    // The flat dictionary ends up holding exactly the tree under its root key, with the keys and values that
    // chapters and questions give it, unless an annotated chapter has "root", the root key, as its UUID;
    // then, and only then, a lookup of the root object fails.
    method Extract(ghost replies: Replies) returns (result: Option<Object>)
      requires Ready(replies)
      modifies this`objects
      ensures result.None? <==> exists i :: 0 <= i < |km.chapters| && TakesRoot(cfg, km.chapters[i])
      ensures result.Some? ==> result.value == Tree(cfg, km, replies) && RootExplained(cfg, km, replies, result.value)
    {
      TreeExplained(cfg, km, replies);
      objects := map[ROOT := []];
      for i := 0 to |km.chapters|
        invariant ROOT in objects <==> forall j :: 0 <= j < i ==> !TakesRoot(cfg, km.chapters[j])
        invariant ROOT in objects ==>
                    Tree(cfg, km, replies)
                    == PutAll(objects[ROOT], ChaptersEntries(cfg, km, replies, km.chapters[i..]))
      {
        assert km.chapters[i..][1..] == km.chapters[i + 1..];
        if ROOT in objects {
          PutAllAppend(objects[ROOT], ChapterEntries(cfg, km, replies, km.chapters[i]),
                       ChaptersEntries(cfg, km, replies, km.chapters[i + 1..]));
        }
        var ok := VisitChapter(km.chapters[i], replies);
        if !ok {
          return None;
        }
      }
      result := if ROOT in objects then Some(objects[ROOT]) else None;
    }
  }

  // An input for which the extraction fails: the identifiers of chapters are taken as they come.
  lemma RootTaken() returns (cfg: Config, km: Model, index: map<Uuid, Replies>, replies: Replies)
    ensures Linked(km) && Matches(index, km.questions, replies)
    ensures exists i :: 0 <= i < |km.chapters| && TakesRoot(cfg, km.chapters[i])
  {
    cfg := Config("json.key", "json.value");
    km := Model([Chapter("root", map["json.key" := One("dmp")], [])], map[], map[], map[]);
    index, replies := map[], map[];
    assert TakesRoot(cfg, km.chapters[0]);
  }
}
