/** The linked knowledge model and the replies keyed by dotted paths. */
module Questionnaire {
  import opened Common

  type Uuid = string
  type Path = string

  // An annotation with one value, or with several.
  datatype Annotation = One(value: string) | Many(values: seq<string>)
  type Annotations = map<string, Annotation>

  // References between questions, answers and chapters are resolved; they may form cycles.
  datatype Kind = ValueQ | IntegrationQ | OptionsQ | MultiChoiceQ | ListQ(followups: seq<Uuid>) | ItemSelectQ | FileQ

  datatype Question = Question(uuid: Uuid, annotations: Annotations, kind: Kind)
  datatype Answer = Answer(caption: string, annotations: Annotations, followups: seq<Uuid>)
  datatype Choice = Choice(uuid: Uuid, caption: string, annotations: Annotations)
  datatype Chapter = Chapter(uuid: Uuid, annotations: Annotations, questions: seq<Uuid>)

  datatype Model = Model(
    chapters: seq<Chapter>,
    questions: map<Uuid, Question>,
    answers: map<Uuid, Answer>,
    choices: map<Uuid, Choice>)

  datatype File = File(uuid: Uuid, name: string, size: int, contentType: string, url: string)

  datatype Reply =
    | StringReply(value: string)
    | AnswerReply(answer: Uuid)
    | ItemListReply(items: seq<Uuid>)
    | MultiChoiceReply(choices: seq<Uuid>)
    | IntegrationReply(text: string, plain: bool, raw: string, title: string)
    | ItemSelectReply(item: Uuid, itemTitle: string)
    | FileReply(file: Option<File>)

  type Replies = map<Path, Reply>

  const DOT: char := '.'

  // Every reference leads to an entity, entities are stored under their own ids.
  ghost predicate Linked(km: Model) {
    && (forall q :: q in km.questions ==> km.questions[q].uuid == q && KindLinked(km, km.questions[q].kind))
    && (forall a :: a in km.answers ==> AllQuestions(km, km.answers[a].followups))
    && (forall i :: 0 <= i < |km.chapters| ==> AllQuestions(km, km.chapters[i].questions))
  }

  ghost predicate KindLinked(km: Model, k: Kind) {
    k.ListQ? ==> AllQuestions(km, k.followups)
  }

  ghost predicate AllQuestions(km: Model, uuids: seq<Uuid>) {
    forall i :: 0 <= i < |uuids| ==> uuids[i] in km.questions
  }

  // A question under the path of what it belongs to: a chapter, an answer given, an item listed.
  datatype Spot = Spot(question: Uuid, path: Path)

  // The choices that the model knows, in order.
  function Known(km: Model, choices: seq<Uuid>): (known: seq<Uuid>)
    ensures forall c :: c in known ==> c in km.choices
  {
    if choices == [] then []
    else (if choices[0] in km.choices then [choices[0]] else []) + Known(km, choices[1..])
  }

  // Choice by choice.
  lemma {:induction false} KnownMeans(km: Model, a: seq<Uuid>, b: seq<Uuid>, c: Uuid)
    ensures Known(km, a + b) == Known(km, a) + Known(km, b)
    ensures Known(km, [c]) == if c in km.choices then [c] else []
  {
    assert [c][1..] == [];
    if a == [] {
      assert a + b == b;
    } else {
      KnownMeans(km, a[1..], b, c);
      assert (a + b)[0] == a[0] && (a + b)[1..] == a[1..] + b;
    }
  }

  function Extend(path: Path, fragment: string): (r: Path)
    ensures |r| == |path| + 1 + |fragment|
  {
    path + [DOT] + fragment
  }

  // `path` is a proper ancestor of `other`.
  predicate Extends(other: Path, path: Path) {
    path + [DOT] <= other
  }

  lemma ExtendsChain(path: Path, fragment: string, other: Path)
    ensures Extends(Extend(path, fragment), path)
    ensures Extends(other, Extend(path, fragment)) ==> Extends(other, path)
  {
  }

  /******* Descent stops where the replies stop *******/

  ghost function Longest(paths: set<Path>): nat {
    if paths == {} then 0 else var p :| p in paths; Max(|p|, Longest(paths - {p}))
  }

  function Max(m: nat, n: nat): (r: nat)
    ensures r >= m && r >= n && (r == m || r == n)
  {
    if m > n then m else n
  }

  lemma {:induction false} LongestBounds(paths: set<Path>, p: Path)
    requires p in paths
    ensures |p| <= Longest(paths)
  {
    var q :| q in paths && Longest(paths) == Max(|q|, Longest(paths - {q}));
    var n := Max(|q|, Longest(paths - {q}));
    if q != p {
      LongestBounds(paths - {q}, p);
    }
  }

  // How far a path can still grow before no reply can be found under it.
  ghost function Room(replies: Replies, path: Path): nat {
    if |path| > Longest(replies.Keys) then 0 else Longest(replies.Keys) + 1 - |path|
  }

  lemma RoomShrinks(replies: Replies, path: Path, longer: Path)
    requires |path| <= |longer|
    ensures Room(replies, longer) <= Room(replies, path)
    ensures path in replies && |path| < |longer| ==> Room(replies, longer) < Room(replies, path)
  {
    if path in replies {
      LongestBounds(replies.Keys, path);
    }
  }

  // Under a path that has a reply there is less room than at any shorter path.
  lemma RoomUnder(replies: Replies, path: Path, here: Path)
    requires here in replies && |path| < |here|
    ensures Room(replies, here) < Room(replies, path)
    ensures forall fragment :: Room(replies, Extend(here, fragment)) < Room(replies, path)
  {
    LongestBounds(replies.Keys, here);
  }

  /******* The per-question reply index *******/

  function LastFragment(path: Path): string {
    if path == "" || path[|path| - 1] == DOT then "" else LastFragment(path[..|path| - 1]) + [path[|path| - 1]]
  }

  // The last fragment of a path built for a question is its id exactly when the id has no dot.
  lemma {:induction false} LastFragmentOfExtend(path: Path, fragment: string)
    ensures LastFragment(Extend(path, fragment)) == fragment <==> DOT !in fragment
  {
    if DOT in fragment {
      NoDotInLast(Extend(path, fragment));
    } else {
      LastFragmentSuffix(path + [DOT], fragment);
    }
  }

  lemma {:induction false} NoDotInLast(path: Path)
    ensures DOT !in LastFragment(path)
  {
    if path != "" && path[|path| - 1] != DOT {
      NoDotInLast(path[..|path| - 1]);
    }
  }

  lemma {:induction false} LastFragmentSuffix(stem: Path, fragment: string)
    requires DOT !in fragment && |stem| > 0 && stem[|stem| - 1] == DOT
    ensures LastFragment(stem + fragment) == fragment
  {
    var all := stem + fragment;
    if fragment == "" {
      assert all == stem;
    } else {
      var init := fragment[..|fragment| - 1];
      assert all[..|all| - 1] == stem + init;
      assert fragment == init + [fragment[|fragment| - 1]];
      LastFragmentSuffix(stem, init);
    }
  }

  // Keeps, for every question, the replies whose path ends in its id.
  class ReplyIndex {
    const questions: map<Uuid, Question>
    var byQuestion: map<Uuid, Replies>

    constructor (questions: map<Uuid, Question>)
      ensures this.questions == questions && byQuestion == map q | q in questions :: map[]
    {
      this.questions := questions;
      this.byQuestion := map q | q in questions :: map[];
    }

    method AddReply(path: Path, reply: Reply)
      requires byQuestion.Keys == questions.Keys
      modifies this`byQuestion
      ensures byQuestion.Keys == questions.Keys
      ensures forall q :: q in questions ==>
                byQuestion[q]
                == if q == LastFragment(path) then old(byQuestion)[q][path := reply] else old(byQuestion)[q]
    {
      var q := LastFragment(path);
      if q in questions {
        byQuestion := byQuestion[q := byQuestion[q][path := reply]];
      }
    }

    // Resolving all replies, in any order, leaves at each question exactly the global replies whose
    // last fragment is its id.
    method ResolveLinks(replies: Replies)
      requires byQuestion == map q | q in questions :: map[]
      modifies this`byQuestion
      ensures Matches(byQuestion, questions, replies)
    {
      var todo := replies.Keys;
      while todo != {}
        invariant todo <= replies.Keys && Matches(byQuestion, questions, replies - todo)
        decreases todo
      {
        var path :| path in todo;
        AddReply(path, replies[path]);
        forall q | q in questions ensures byQuestion[q] == Restricted(replies - (todo - {path}), q) {
          RestrictedNext(replies, todo, path, q);
        }
        todo := todo - {path};
      }
      assert replies - {} == replies;
    }
  }

  lemma RestrictedNext(replies: Replies, todo: set<Path>, path: Path, q: Uuid)
    requires path in todo && todo <= replies.Keys
    ensures Restricted(replies - (todo - {path}), q)
            == if q == LastFragment(path) then Restricted(replies - todo, q)[path := replies[path]]
               else Restricted(replies - todo, q)
  {
  }

  function Restricted(replies: Replies, q: Uuid): Replies {
    map p | p in replies && LastFragment(p) == q :: replies[p]
  }

  ghost predicate Matches(index: map<Uuid, Replies>, questions: map<Uuid, Question>, replies: Replies) {
    index.Keys == questions.Keys && forall q :: q in questions ==> index[q] == Restricted(replies, q)
  }

  function Lookup(replies: Replies, path: Path): Option<Reply> {
    if path in replies then Some(replies[path]) else None
  }

  // The extractor reads the index of the question, the visitor the global map: at every path built for
  // a question they see the same reply, if and only if the id is dot-free or there is none to see.
  lemma SameReply(index: map<Uuid, Replies>, km: Model, replies: Replies, q: Uuid, parent: Path)
    requires Matches(index, km.questions, replies) && q in km.questions
    ensures Lookup(index[q], Extend(parent, q)) == Lookup(replies, Extend(parent, q)) <==>
            DOT !in q || Extend(parent, q) !in replies
  {
    LastFragmentOfExtend(parent, q);
  }
}
