/** The visitor that names list items from the replies below them. */
module ReplyVisitor {
  import opened Common
  import opened Questionnaire
  import ItemTitles

  /******* Which titles and links a walk over the replies yields *******/

  // One assignment of the visitor: to item_titles or to item_same_as.
  datatype Effect = Title(item: Uuid, title: string) | Same(item: Uuid, other: Uuid)

  datatype Names = Names(titles: map<Uuid, string>, sameAs: map<Uuid, Uuid>)

  function Perform(n: Names, e: Effect): Names {
    match e
    case Title(item, title) => n.(titles := n.titles[item := title])
    case Same(item, other) => n.(sameAs := n.sameAs[item := other])
  }

  function PerformAll(n: Names, es: seq<Effect>): Names
    decreases |es|
  {
    if es == [] then n else PerformAll(Perform(n, es[0]), es[1..])
  }

  lemma {:induction false} PerformAppend(n: Names, a: seq<Effect>, b: seq<Effect>)
    ensures PerformAll(n, a + b) == PerformAll(PerformAll(n, a), b)
    decreases |a|
  {
    if a == [] {
      assert a + b == b;
    } else {
      PerformAppend(Perform(n, a[0]), a[1..], b);
      assert (a + b)[0] == a[0] && (a + b)[1..] == a[1..] + b;
    }
  }

  function Joined(parts: seq<string>): string {
    if parts == [] then "" else if |parts| == 1 then parts[0] else parts[0] + ", " + Joined(parts[1..])
  }

  function Captions(km: Model, choices: seq<Uuid>): seq<string> {
    if choices == [] then []
    else (if choices[0] in km.choices then [km.choices[choices[0]].caption] else []) + Captions(km, choices[1..])
  }

  // The title a reply gives to its item; lists and item selections give none themselves.
  function DirectTitle(km: Model, reply: Reply): Option<string> {
    match reply
    case StringReply(value) => Some(value)
    case AnswerReply(a) => Some(if a in km.answers then km.answers[a].caption else "")
    case MultiChoiceReply(choices) => Some(Joined(Captions(km, choices)))
    case IntegrationReply(_, _, _, title) => Some(title)
    case FileReply(file) => Some(if file.Some? then file.value.name else "")
    case ItemListReply(_) => None
    case ItemSelectReply(_, _) => None
  }

  // Looks at the reply to the first question below the item.
  function PrepareTitle(km: Model, replies: Replies, followups: seq<Uuid>, item: Uuid, itemPath: Path): seq<Effect> {
    if followups == [] then []
    else
      match Lookup(replies, Extend(itemPath, followups[0]))
      case None => []
      case Some(reply) =>
        if reply.ItemListReply? && |reply.items| > 0 then [Same(item, reply.items[0])]
        else if reply.ItemSelectReply? && reply.item != "" then [Same(item, reply.item)]
        else
          match DirectTitle(km, reply)
          case Some(title) => [Title(item, title)]
          case None => []
  }

  function VisitQuestions(km: Model, replies: Replies, questions: seq<Uuid>, path: Path): seq<Effect>
    requires Linked(km) && AllQuestions(km, questions)
    decreases Room(replies, path), 1, |questions|
  {
    if questions == [] then []
    else
      VisitQuestion(km, replies, km.questions[questions[0]], path)
      + VisitQuestions(km, replies, questions[1..], path)
  }

  function VisitQuestion(km: Model, replies: Replies, q: Question, path: Path): seq<Effect>
    requires Linked(km) && KindLinked(km, q.kind)
    decreases Room(replies, path), 0, 0
  {
    var here := Extend(path, q.uuid);
    RoomShrinks(replies, path, here);
    if here !in replies then []
    else if q.kind.ListQ? && replies[here].ItemListReply? then
      RoomUnder(replies, path, here);
      VisitItems(km, replies, q.kind.followups, replies[here].items, 0, here)
    else if q.kind.OptionsQ? && replies[here].AnswerReply? && replies[here].answer in km.answers then
      var below := Extend(here, replies[here].answer);
      RoomUnder(replies, path, here);
      RoomShrinks(replies, here, below);
      VisitQuestions(km, replies, km.answers[replies[here].answer].followups, below)
    else []
  }

  function VisitItems(km: Model, replies: Replies, followups: seq<Uuid>, items: seq<Uuid>, n: nat,
                      path: Path): seq<Effect>
    requires Linked(km) && AllQuestions(km, followups) && n <= |items| && path in replies
    decreases Room(replies, path), 0, |items| - n
  {
    if n == |items| then []
    else
      var below := Extend(path, items[n]);
      RoomShrinks(replies, path, below);
      [Title(items[n], "Item " + Decimal(n + 1))]
      + PrepareTitle(km, replies, followups, items[n], below)
      + VisitQuestions(km, replies, followups, below)
      + VisitItems(km, replies, followups, items, n + 1, path)
  }

  function VisitChapters(km: Model, replies: Replies, chapters: seq<Chapter>): seq<Effect>
    requires Linked(km) && forall i :: 0 <= i < |chapters| ==> AllQuestions(km, chapters[i].questions)
  {
    if chapters == [] then []
    else
      VisitQuestions(km, replies, chapters[0].questions, chapters[0].uuid)
      + VisitChapters(km, replies, chapters[1..])
  }

  function Walked(km: Model, replies: Replies): Names
    requires Linked(km)
  {
    PerformAll(Names(map[], map[]), VisitChapters(km, replies, km.chapters))
  }

  /******* What the walk means: reachable lists *******/

  // s is a question of a chapter.
  predicate Starts(km: Model, s: Spot) {
    exists i :: 0 <= i < |km.chapters| && s.path == km.chapters[i].uuid && s.question in km.chapters[i].questions
  }

  // The reply at the question s opens the question t: t follows up the chosen answer, or one of the items.
  predicate Opens(km: Model, replies: Replies, s: Spot, t: Spot) {
    && s.question in km.questions && Extend(s.path, s.question) in replies
    && var here := Extend(s.path, s.question);
       match km.questions[s.question].kind
       case ListQ(followups) =>
         && replies[here].ItemListReply? && t.question in followups
         && exists i :: 0 <= i < |replies[here].items| && t.path == Extend(here, replies[here].items[i])
       case OptionsQ =>
         && replies[here].AnswerReply? && replies[here].answer in km.answers
         && t.question in km.answers[replies[here].answer].followups && t.path == Extend(here, replies[here].answer)
       case _ => false
  }

  // A chain of questions from a chapter on, each opened by the reply to the one before.
  predicate Trail(km: Model, replies: Replies, trail: seq<Spot>) {
    && trail != [] && Starts(km, trail[0])
    && forall i :: 0 <= i < |trail| - 1 ==> Opens(km, replies, trail[i], trail[i + 1])
  }

  ghost predicate Reachable(km: Model, replies: Replies, s: Spot) {
    exists trail :: Trail(km, replies, trail) && trail[|trail| - 1] == s
  }

  lemma ReachStart(km: Model, replies: Replies, i: nat, q: Uuid)
    requires i < |km.chapters| && q in km.chapters[i].questions
    ensures Reachable(km, replies, Spot(q, km.chapters[i].uuid))
  {
    assert Trail(km, replies, [Spot(q, km.chapters[i].uuid)]);
  }

  lemma ReachNext(km: Model, replies: Replies, s: Spot, t: Spot)
    requires Reachable(km, replies, s) && Opens(km, replies, s, t)
    ensures Reachable(km, replies, t)
  {
    var trail :| Trail(km, replies, trail) && trail[|trail| - 1] == s;
    assert Trail(km, replies, trail + [t]);
  }

  // The reply at the list question s has item x in place n.
  predicate ListsAt(km: Model, replies: Replies, s: Spot, n: nat, x: Uuid) {
    && s.question in km.questions && km.questions[s.question].kind.ListQ?
    && var here := Extend(s.path, s.question);
       here in replies && replies[here].ItemListReply? && n < |replies[here].items| && replies[here].items[n] == x
  }

  ghost predicate Listed(km: Model, replies: Replies, x: Uuid) {
    exists s, n: nat :: Reachable(km, replies, s) && ListsAt(km, replies, s, n, x)
  }

  // The reply to the first question below a listed item, if there is one.
  function FirstReply(km: Model, replies: Replies, s: Spot, x: Uuid): Option<Reply> {
    if s.question !in km.questions || !km.questions[s.question].kind.ListQ? then None
    else
      var followups := km.questions[s.question].kind.followups;
      if followups == [] then None else Lookup(replies, Extend(Extend(Extend(s.path, s.question), x), followups[0]))
  }

  // The item that a listed item is the same as: the first of a nested list, or the one selected.
  function LinkOf(reply: Option<Reply>): Option<Uuid> {
    match reply
    case Some(ItemListReply(items)) => if items == [] then None else Some(items[0])
    case Some(ItemSelectReply(item, _)) => if item == "" then None else Some(item)
    case _ => None
  }

  // A listed item is called after its first reply, or else by its place.
  function TitleOf(km: Model, reply: Option<Reply>, n: nat): string {
    match reply
    case Some(r) => if DirectTitle(km, r).Some? then DirectTitle(km, r).value else "Item " + Decimal(n + 1)
    case None => "Item " + Decimal(n + 1)
  }

  // A comma before each part.
  function Listing(parts: seq<string>): string {
    if parts == [] then "" else ", " + parts[0] + Listing(parts[1..])
  }

  // t is the title of item number n + 1 with this reply to the first question below it, kind by kind.
  predicate IsTitle(km: Model, first: Option<Reply>, n: nat, t: string) {
    match first
    case Some(StringReply(value)) => t == value
    case Some(AnswerReply(a)) => if a in km.answers then t == km.answers[a].caption else t == ""
    case Some(MultiChoiceReply(choices)) =>
      var known := Known(km, choices);
      var captions := seq(|known|, i requires 0 <= i < |known| => km.choices[known[i]].caption);
      if known == [] then t == "" else ", " + t == Listing(captions)
    case Some(IntegrationReply(_, _, _, title)) => t == title
    case Some(FileReply(Some(file))) => t == file.name
    case Some(FileReply(None)) => t == ""
    case _ => t == "Item " + Decimal(n + 1)
  }

  lemma {:induction false} JoinedMeans(parts: seq<string>)
    requires parts != []
    ensures ", " + Joined(parts) == Listing(parts)
  {
    var rest := parts[1..];
    if rest != [] {
      JoinedMeans(rest);
      assert ", " + (parts[0] + ", " + Joined(rest)) == ", " + parts[0] + (", " + Joined(rest));
    }
  }

  lemma {:induction false} CaptionsOfKnown(km: Model, choices: seq<Uuid>)
    ensures var known := Known(km, choices);
            Captions(km, choices) == seq(|known|, i requires 0 <= i < |known| => km.choices[known[i]].caption)
  {
    if choices != [] {
      CaptionsOfKnown(km, choices[1..]);
    }
  }

  lemma TitleMeans(km: Model, first: Option<Reply>, n: nat, t: string)
    ensures t == TitleOf(km, first, n) <==> IsTitle(km, first, n, t)
  {
    if first.Some? && first.value.MultiChoiceReply? {
      CaptionsOfKnown(km, first.value.choices);
      if Captions(km, first.value.choices) != [] {
        JoinedMeans(Captions(km, first.value.choices));
      }
      var u := TitleOf(km, first, n);
      assert (", " + t)[2..] == t && (", " + u)[2..] == u;
    }
  }

  /******* The places of items, in the order of the walk *******/

  // Item number n + 1 of the reply at a list question.
  datatype Place = Place(spot: Spot, n: nat, item: Uuid)

  ghost predicate IsPlace(km: Model, replies: Replies, p: Place) {
    Reachable(km, replies, p.spot) && ListsAt(km, replies, p.spot, p.n, p.item)
  }

  // Questions in order, each before the next, and an item before what is nested below it.
  function QuestionsPlaces(km: Model, replies: Replies, questions: seq<Uuid>, path: Path): seq<Place>
    requires Linked(km) && AllQuestions(km, questions)
    decreases Room(replies, path), 1, |questions|
  {
    if questions == [] then []
    else QuestionPlaces(km, replies, Spot(questions[0], path)) + QuestionsPlaces(km, replies, questions[1..], path)
  }

  function QuestionPlaces(km: Model, replies: Replies, s: Spot): seq<Place>
    requires Linked(km) && s.question in km.questions
    decreases Room(replies, s.path), 0, 0
  {
    var here, kind := Extend(s.path, s.question), km.questions[s.question].kind;
    if here !in replies then []
    else
      RoomUnder(replies, s.path, here);
      if kind.ListQ? && replies[here].ItemListReply? then ItemsPlaces(km, replies, s, 0)
      else if kind.OptionsQ? && replies[here].AnswerReply? && replies[here].answer in km.answers then
        QuestionsPlaces(km, replies, km.answers[replies[here].answer].followups, Extend(here, replies[here].answer))
      else []
  }

  function ItemsPlaces(km: Model, replies: Replies, s: Spot, k: nat): seq<Place>
    requires Linked(km) && IsList(km, replies, s) && k <= |Items(km, replies, s)|
    decreases Room(replies, Extend(s.path, s.question)), 2, |Items(km, replies, s)| - k
  {
    var here, items := Extend(s.path, s.question), Items(km, replies, s);
    if k == |items| then []
    else
      RoomShrinks(replies, here, Extend(here, items[k]));
      [Place(s, k, items[k])]
      + QuestionsPlaces(km, replies, km.questions[s.question].kind.followups, Extend(here, items[k]))
      + ItemsPlaces(km, replies, s, k + 1)
  }

  predicate IsList(km: Model, replies: Replies, s: Spot) {
    && s.question in km.questions && km.questions[s.question].kind.ListQ?
    && Extend(s.path, s.question) in replies && replies[Extend(s.path, s.question)].ItemListReply?
  }

  function Items(km: Model, replies: Replies, s: Spot): seq<Uuid>
    requires IsList(km, replies, s)
  {
    replies[Extend(s.path, s.question)].items
  }

  function ChaptersPlaces(km: Model, replies: Replies, k: nat): seq<Place>
    requires Linked(km) && k <= |km.chapters|
    decreases |km.chapters| - k
  {
    if k == |km.chapters| then []
    else
      QuestionsPlaces(km, replies, km.chapters[k].questions, km.chapters[k].uuid) + ChaptersPlaces(km, replies, k + 1)
  }

  function Places(km: Model, replies: Replies): seq<Place>
    requires Linked(km)
  {
    ChaptersPlaces(km, replies, 0)
  }

  /******* The walk performs the effects of the places *******/

  // The effects of one listed item.
  function ItemEffects(km: Model, replies: Replies, followups: seq<Uuid>, item: Uuid, n: nat, path: Path): seq<Effect> {
    [Title(item, "Item " + Decimal(n + 1))] + PrepareTitle(km, replies, followups, item, Extend(path, item))
  }

  function PlaceEffects(km: Model, replies: Replies, p: Place): seq<Effect> {
    if p.spot.question !in km.questions || !km.questions[p.spot.question].kind.ListQ? then []
    else
      var followups := km.questions[p.spot.question].kind.followups;
      ItemEffects(km, replies, followups, p.item, p.n, Extend(p.spot.path, p.spot.question))
  }

  function EffectsOf(km: Model, replies: Replies, ps: seq<Place>): seq<Effect> {
    if ps == [] then [] else PlaceEffects(km, replies, ps[0]) + EffectsOf(km, replies, ps[1..])
  }

  lemma {:induction false} EffectsAppend(km: Model, replies: Replies, a: seq<Place>, b: seq<Place>)
    ensures EffectsOf(km, replies, a + b) == EffectsOf(km, replies, a) + EffectsOf(km, replies, b)
  {
    if a == [] {
      assert a + b == b;
    } else {
      EffectsAppend(km, replies, a[1..], b);
      assert (a + b)[0] == a[0] && (a + b)[1..] == a[1..] + b;
      Associative(PlaceEffects(km, replies, a[0]), EffectsOf(km, replies, a[1..]), EffectsOf(km, replies, b));
    }
  }

  lemma Associative(a: seq<Effect>, b: seq<Effect>, c: seq<Effect>)
    ensures (a + b) + c == a + (b + c)
  {
  }

  // All of them are reachable, and the effects of the walk are theirs, in their order.
  ghost predicate WalkOf(km: Model, replies: Replies, es: seq<Effect>, ps: seq<Place>) {
    es == EffectsOf(km, replies, ps) && forall p :: p in ps ==> IsPlace(km, replies, p)
  }

  lemma WalkAppend(km: Model, replies: Replies, d: seq<Effect>, p: seq<Place>, e: seq<Effect>, q: seq<Place>)
    requires WalkOf(km, replies, d, p) && WalkOf(km, replies, e, q)
    ensures WalkOf(km, replies, d + e, p + q)
  {
    EffectsAppend(km, replies, p, q);
  }

  lemma {:induction false} QuestionsWalk(km: Model, replies: Replies, questions: seq<Uuid>, path: Path)
    requires Linked(km) && AllQuestions(km, questions)
    requires forall q :: q in questions ==> Reachable(km, replies, Spot(q, path))
    ensures WalkOf(km, replies, VisitQuestions(km, replies, questions, path),
                   QuestionsPlaces(km, replies, questions, path))
    decreases Room(replies, path), 1, |questions|
  {
    if questions != [] {
      var s := Spot(questions[0], path);
      QuestionWalk(km, replies, s);
      QuestionsWalk(km, replies, questions[1..], path);
      WalkAppend(km, replies,
                 VisitQuestion(km, replies, km.questions[s.question], path), QuestionPlaces(km, replies, s),
                 VisitQuestions(km, replies, questions[1..], path), QuestionsPlaces(km, replies, questions[1..], path));
    }
  }

  lemma QuestionWalk(km: Model, replies: Replies, s: Spot)
    requires Linked(km) && s.question in km.questions && Reachable(km, replies, s)
    ensures WalkOf(km, replies, VisitQuestion(km, replies, km.questions[s.question], s.path),
                   QuestionPlaces(km, replies, s))
    decreases Room(replies, s.path), 0, 0
  {
    var here, kind := Extend(s.path, s.question), km.questions[s.question].kind;
    if here in replies {
      RoomUnder(replies, s.path, here);
      if kind.ListQ? && replies[here].ItemListReply? {
        ItemsWalk(km, replies, s, 0);
      } else if kind.OptionsQ? && replies[here].AnswerReply? && replies[here].answer in km.answers {
        var below, followups := Extend(here, replies[here].answer), km.answers[replies[here].answer].followups;
        forall f | f in followups ensures Reachable(km, replies, Spot(f, below)) {
          ReachNext(km, replies, s, Spot(f, below));
        }
        QuestionsWalk(km, replies, followups, below);
      }
    }
  }

  lemma {:induction false} ItemsWalk(km: Model, replies: Replies, s: Spot, k: nat)
    requires Linked(km) && IsList(km, replies, s) && k <= |Items(km, replies, s)| && Reachable(km, replies, s)
    ensures var followups, here := km.questions[s.question].kind.followups, Extend(s.path, s.question);
            WalkOf(km, replies, VisitItems(km, replies, followups, Items(km, replies, s), k, here),
                   ItemsPlaces(km, replies, s, k))
    decreases Room(replies, Extend(s.path, s.question)), 2, |Items(km, replies, s)| - k
  {
    var here, items := Extend(s.path, s.question), Items(km, replies, s);
    var followups := km.questions[s.question].kind.followups;
    if k < |items| {
      var below, p := Extend(here, items[k]), Place(s, k, items[k]);
      RoomShrinks(replies, here, below);
      ItemsSplit(km, replies, followups, items, k, here);
      OnePlace(km, replies, p);
      forall f | f in followups ensures Reachable(km, replies, Spot(f, below)) {
        ReachNext(km, replies, s, Spot(f, below));
      }
      QuestionsWalk(km, replies, followups, below);
      ItemsWalk(km, replies, s, k + 1);
      var nested := VisitQuestions(km, replies, followups, below);
      var rest := VisitItems(km, replies, followups, items, k + 1, here);
      var inner := QuestionsPlaces(km, replies, followups, below);
      WalkAppend(km, replies, PlaceEffects(km, replies, p), [p], nested, inner);
      WalkAppend(km, replies, PlaceEffects(km, replies, p) + nested, [p] + inner,
                 rest, ItemsPlaces(km, replies, s, k + 1));
    }
  }

  lemma ItemsSplit(km: Model, replies: Replies, followups: seq<Uuid>, items: seq<Uuid>, n: nat, path: Path)
    requires Linked(km) && AllQuestions(km, followups) && n < |items| && path in replies
    ensures VisitItems(km, replies, followups, items, n, path)
            == ItemEffects(km, replies, followups, items[n], n, path)
               + VisitQuestions(km, replies, followups, Extend(path, items[n]))
               + VisitItems(km, replies, followups, items, n + 1, path)
  {
  }

  lemma OnePlace(km: Model, replies: Replies, p: Place)
    requires IsPlace(km, replies, p)
    ensures WalkOf(km, replies, PlaceEffects(km, replies, p), [p])
  {
    assert [p][1..] == [];
  }

  lemma {:induction false} ChaptersWalk(km: Model, replies: Replies, k: nat)
    requires Linked(km) && k <= |km.chapters|
    ensures WalkOf(km, replies, VisitChapters(km, replies, km.chapters[k..]), ChaptersPlaces(km, replies, k))
    decreases |km.chapters| - k
  {
    if k < |km.chapters| {
      var c := km.chapters[k];
      forall q | q in c.questions ensures Reachable(km, replies, Spot(q, c.uuid)) {
        ReachStart(km, replies, k, q);
      }
      QuestionsWalk(km, replies, c.questions, c.uuid);
      ChaptersWalk(km, replies, k + 1);
      assert km.chapters[k..][1..] == km.chapters[k + 1..];
      WalkAppend(km, replies,
                 VisitQuestions(km, replies, c.questions, c.uuid), QuestionsPlaces(km, replies, c.questions, c.uuid),
                 VisitChapters(km, replies, km.chapters[k + 1..]), ChaptersPlaces(km, replies, k + 1));
    }
  }

  /******* Every reachable place is visited *******/

  lemma {:induction false} InQuestions(km: Model, replies: Replies, questions: seq<Uuid>, path: Path, q: Uuid, p: Place)
    requires Linked(km) && AllQuestions(km, questions) && q in questions
    requires p in QuestionPlaces(km, replies, Spot(q, path))
    ensures p in QuestionsPlaces(km, replies, questions, path)
    decreases |questions|
  {
    if questions[0] != q {
      InQuestions(km, replies, questions[1..], path, q, p);
    }
  }

  lemma {:induction false} InItems(km: Model, replies: Replies, s: Spot, n: nat, k: nat, p: Place)
    requires Linked(km) && IsList(km, replies, s) && n <= k < |Items(km, replies, s)|
    requires var item := Items(km, replies, s)[k];
             || p == Place(s, k, item)
             || p in QuestionsPlaces(km, replies, km.questions[s.question].kind.followups,
                                     Extend(Extend(s.path, s.question), item))
    ensures p in ItemsPlaces(km, replies, s, n)
    decreases k - n
  {
    if n < k {
      InItems(km, replies, s, n + 1, k, p);
    }
  }

  lemma {:induction false} InChapters(km: Model, replies: Replies, n: nat, k: nat, p: Place)
    requires Linked(km) && n <= k < |km.chapters|
    requires p in QuestionsPlaces(km, replies, km.chapters[k].questions, km.chapters[k].uuid)
    ensures p in ChaptersPlaces(km, replies, n)
    decreases k - n
  {
    ChaptersSplit(km, replies, n);
    if n < k {
      InChapters(km, replies, n + 1, k, p);
    }
  }

  lemma ChaptersSplit(km: Model, replies: Replies, n: nat)
    requires Linked(km) && n < |km.chapters|
    ensures ChaptersPlaces(km, replies, n)
            == QuestionsPlaces(km, replies, km.chapters[n].questions, km.chapters[n].uuid)
               + ChaptersPlaces(km, replies, n + 1)
  {
  }

  lemma InOpened(km: Model, replies: Replies, s: Spot, t: Spot, p: Place)
    requires Linked(km) && Opens(km, replies, s, t)
    requires t.question in km.questions && p in QuestionPlaces(km, replies, t)
    ensures p in QuestionPlaces(km, replies, s)
  {
    var here, kind := Extend(s.path, s.question), km.questions[s.question].kind;
    if kind.ListQ? {
      var k :| 0 <= k < |replies[here].items| && t.path == Extend(here, replies[here].items[k]);
      InQuestions(km, replies, kind.followups, t.path, t.question, p);
      InItems(km, replies, s, 0, k, p);
    } else {
      InQuestions(km, replies, km.answers[replies[here].answer].followups, t.path, t.question, p);
    }
  }

  lemma {:induction false} InWalk(km: Model, replies: Replies, trail: seq<Spot>, p: Place)
    requires Linked(km) && Trail(km, replies, trail)
    requires var s := trail[|trail| - 1]; s.question in km.questions && p in QuestionPlaces(km, replies, s)
    ensures p in Places(km, replies)
    decreases |trail|
  {
    var n := |trail| - 1;
    if n == 0 {
      var s := trail[0];
      var i :| 0 <= i < |km.chapters| && s.path == km.chapters[i].uuid && s.question in km.chapters[i].questions;
      InQuestions(km, replies, km.chapters[i].questions, s.path, s.question, p);
      InChapters(km, replies, 0, i, p);
    } else {
      InOpened(km, replies, trail[n - 1], trail[n], p);
      InWalk(km, replies, trail[..n], p);
    }
  }

  // The places of the walk are exactly those of reachable lists.
  lemma PlacesAreReachable(km: Model, replies: Replies, p: Place)
    requires Linked(km)
    ensures p in Places(km, replies) <==> IsPlace(km, replies, p)
  {
    ChaptersWalk(km, replies, 0);
    if IsPlace(km, replies, p) {
      var trail :| Trail(km, replies, trail) && trail[|trail| - 1] == p.spot;
      InItems(km, replies, p.spot, 0, p.n, p);
      InWalk(km, replies, trail, p);
    }
  }

  /******* The last place names an item, the last link links it *******/

  // The title that the last place of x gives it.
  function LastTitle(km: Model, replies: Replies, ps: seq<Place>, x: Uuid): Option<string> {
    if ps == [] then None
    else
      var p := ps[|ps| - 1];
      if p.item == x then Some(TitleOf(km, FirstReply(km, replies, p.spot, x), p.n))
      else LastTitle(km, replies, ps[..|ps| - 1], x)
  }

  // The link of the last place of x that gives one.
  function LastLink(km: Model, replies: Replies, ps: seq<Place>, x: Uuid): Option<Uuid> {
    if ps == [] then None
    else
      var p := ps[|ps| - 1];
      if p.item == x && LinkOf(FirstReply(km, replies, p.spot, x)).Some? then LinkOf(FirstReply(km, replies, p.spot, x))
      else LastLink(km, replies, ps[..|ps| - 1], x)
  }

  predicate NamedBy(n: Names, x: Uuid, title: Option<string>, link: Option<Uuid>) {
    && (x in n.titles <==> title.Some?) && (x in n.titles ==> title == Some(n.titles[x]))
    && (x in n.sameAs <==> link.Some?) && (x in n.sameAs ==> link == Some(n.sameAs[x]))
  }

  lemma PrepareMeans(km: Model, replies: Replies, p: Place)
    requires ListsAt(km, replies, p.spot, p.n, p.item)
    ensures var first, here := FirstReply(km, replies, p.spot, p.item), Extend(p.spot.path, p.spot.question);
            PrepareTitle(km, replies, km.questions[p.spot.question].kind.followups, p.item, Extend(here, p.item))
            == if LinkOf(first).Some? then [Same(p.item, LinkOf(first).value)]
               else if first.Some? && DirectTitle(km, first.value).Some? then
                 [Title(p.item, DirectTitle(km, first.value).value)]
               else []
  {
  }

  lemma PerformTwo(n: Names, d: Effect, e: Effect)
    ensures PerformAll(n, [d]) == Perform(n, d)
    ensures PerformAll(n, [d] + [e]) == Perform(Perform(n, d), e)
  {
    assert [d][1..] == [] && [e][1..] == [] && ([d] + [e])[1..] == [e];
    assert PerformAll(Perform(n, d), [e]) == Perform(Perform(n, d), e);
  }

  // One or two effects on y: its number as title, and perhaps a better title or a link.
  lemma EffectsName(n: Names, y: Uuid, number: string, rest: seq<Effect>, x: Uuid, title: Option<string>,
                    link: Option<Uuid>, ownTitle: string, ownLink: Option<Uuid>)
    requires NamedBy(n, x, title, link)
    requires if ownLink.Some? then rest == [Same(y, ownLink.value)] && ownTitle == number
             else rest == [Title(y, ownTitle)] || (rest == [] && ownTitle == number)
    ensures NamedBy(PerformAll(n, [Title(y, number)] + rest), x,
                    if y == x then Some(ownTitle) else title, if y == x && ownLink.Some? then ownLink else link)
  {
    var d := Title(y, number);
    if rest == [] {
      assert [d] + rest == [d];
      PerformTwo(n, d, d);
    } else {
      PerformTwo(n, d, rest[0]);
      assert rest == [rest[0]];
    }
  }

  lemma {:induction false} NamedByLast(km: Model, replies: Replies, ps: seq<Place>, x: Uuid)
    requires forall p :: p in ps ==> IsPlace(km, replies, p)
    ensures NamedBy(PerformAll(Names(map[], map[]), EffectsOf(km, replies, ps)), x,
                    LastTitle(km, replies, ps, x), LastLink(km, replies, ps, x))
  {
    if ps != [] {
      var init, p := ps[..|ps| - 1], ps[|ps| - 1];
      assert ps == init + [p] && p in ps && forall q :: q in init ==> q in ps;
      NamedByLast(km, replies, init, x);
      OnePlace(km, replies, p);
      EffectsAppend(km, replies, init, [p]);
      PerformAppend(Names(map[], map[]), EffectsOf(km, replies, init), PlaceEffects(km, replies, p));
      PlaceNames(km, replies, PerformAll(Names(map[], map[]), EffectsOf(km, replies, init)), p, x,
                 LastTitle(km, replies, init, x), LastLink(km, replies, init, x));
    }
  }

  lemma PlaceNames(km: Model, replies: Replies, n: Names, p: Place, x: Uuid, title: Option<string>, link: Option<Uuid>)
    requires ListsAt(km, replies, p.spot, p.n, p.item) && NamedBy(n, x, title, link)
    ensures var first := FirstReply(km, replies, p.spot, p.item);
            NamedBy(PerformAll(n, PlaceEffects(km, replies, p)), x,
                    if p.item == x then Some(TitleOf(km, first, p.n)) else title,
                    if p.item == x && LinkOf(first).Some? then LinkOf(first) else link)
  {
    var first, here := FirstReply(km, replies, p.spot, p.item), Extend(p.spot.path, p.spot.question);
    PrepareMeans(km, replies, p);
    EffectsName(n, p.item, "Item " + Decimal(p.n + 1),
                PrepareTitle(km, replies, km.questions[p.spot.question].kind.followups, p.item, Extend(here, p.item)),
                x, title, link, TitleOf(km, first, p.n), LinkOf(first));
  }

  // Of all places of an item the last one names it and the last one with a link links it.
  lemma LastPlaceNames(km: Model, replies: Replies, x: Uuid)
    requires Linked(km)
    ensures var ps := Places(km, replies);
            NamedBy(Walked(km, replies), x, LastTitle(km, replies, ps, x), LastLink(km, replies, ps, x))
  {
    ChaptersWalk(km, replies, 0);
    assert km.chapters[0..] == km.chapters;
    NamedByLast(km, replies, Places(km, replies), x);
  }

  // The title of an item in its place, by the reply to the first question below it.
  predicate TitledAt(km: Model, replies: Replies, p: Place, t: string) {
    && p.spot.question in km.questions && km.questions[p.spot.question].kind.ListQ?
    && var followups := km.questions[p.spot.question].kind.followups;
       if followups == [] then IsTitle(km, None, p.n, t)
       else
         var at := p.spot.path + "." + p.spot.question + "." + p.item + "." + followups[0];
         IsTitle(km, if at in replies then Some(replies[at]) else None, p.n, t)
  }

  lemma PlaceTitle(km: Model, replies: Replies, p: Place)
    requires p.spot.question in km.questions && km.questions[p.spot.question].kind.ListQ?
    ensures TitledAt(km, replies, p, TitleOf(km, FirstReply(km, replies, p.spot, p.item), p.n))
  {
    TitleMeans(km, FirstReply(km, replies, p.spot, p.item), p.n,
               TitleOf(km, FirstReply(km, replies, p.spot, p.item), p.n));
  }

  // The last of the places of x.
  ghost predicate LastPlace(ps: seq<Place>, x: Uuid, k: nat) {
    k < |ps| && ps[k].item == x && forall j :: k < j < |ps| ==> ps[j].item != x
  }

  lemma {:induction false} LastTitleFrom(km: Model, replies: Replies, ps: seq<Place>, x: Uuid) returns (k: nat)
    requires forall p :: p in ps ==> IsPlace(km, replies, p)
    requires LastTitle(km, replies, ps, x).Some?
    ensures LastPlace(ps, x, k) && TitledAt(km, replies, ps[k], LastTitle(km, replies, ps, x).value)
  {
    var n := |ps| - 1;
    assert ps[n] in ps && ps == ps[..n] + [ps[n]];
    if ps[n].item == x {
      k := n;
      PlaceTitle(km, replies, ps[n]);
    } else {
      k := LastTitleFrom(km, replies, ps[..n], x);
    }
  }

  // A listed item gets the title of its last place, said kind by kind.
  lemma WalkTitles(km: Model, replies: Replies, x: Uuid) returns (k: nat)
    requires Linked(km) && Listed(km, replies, x)
    ensures LastPlace(Places(km, replies), x, k) && x in Walked(km, replies).titles
    ensures TitledAt(km, replies, Places(km, replies)[k], Walked(km, replies).titles[x])
  {
    ChaptersWalk(km, replies, 0);
    NamesTheListed(km, replies, x);
    LastPlaceNames(km, replies, x);
    k := LastTitleFrom(km, replies, Places(km, replies), x);
  }

  // The place that names x, if x has any.
  lemma {:induction false} LastTitleAt(km: Model, replies: Replies, ps: seq<Place>, x: Uuid) returns (p: Option<Place>)
    ensures p.None? ==> LastTitle(km, replies, ps, x).None? && forall q :: q in ps ==> q.item != x
    ensures p.Some? ==>
              && p.value in ps && p.value.item == x
              && LastTitle(km, replies, ps, x)
                 == Some(TitleOf(km, FirstReply(km, replies, p.value.spot, x), p.value.n))
  {
    if ps == [] {
      p := None;
    } else if ps[|ps| - 1].item == x {
      p := Some(ps[|ps| - 1]);
    } else {
      p := LastTitleAt(km, replies, ps[..|ps| - 1], x);
      assert ps == ps[..|ps| - 1] + [ps[|ps| - 1]];
    }
  }

  // The place that links x, if any does.
  lemma {:induction false} LastLinkAt(km: Model, replies: Replies, ps: seq<Place>, x: Uuid) returns (p: Option<Place>)
    ensures p.None? ==>
              && LastLink(km, replies, ps, x).None?
              && forall q :: q in ps && q.item == x ==> LinkOf(FirstReply(km, replies, q.spot, x)).None?
    ensures p.Some? ==>
              && p.value in ps && p.value.item == x && LastLink(km, replies, ps, x).Some?
              && LastLink(km, replies, ps, x) == LinkOf(FirstReply(km, replies, p.value.spot, x))
  {
    if ps == [] {
      p := None;
    } else {
      var last := ps[|ps| - 1];
      if last.item == x && LinkOf(FirstReply(km, replies, last.spot, x)).Some? {
        p := Some(last);
      } else {
        p := LastLinkAt(km, replies, ps[..|ps| - 1], x);
        assert ps == ps[..|ps| - 1] + [last];
      }
    }
  }

  // The walk names exactly the items that some reachable list has.
  lemma NamesTheListed(km: Model, replies: Replies, x: Uuid)
    requires Linked(km)
    ensures x in Walked(km, replies).titles <==> Listed(km, replies, x)
  {
    var ps := Places(km, replies);
    LastPlaceNames(km, replies, x);
    var last := LastTitleAt(km, replies, ps, x);
    if s, n: nat :| Reachable(km, replies, s) && ListsAt(km, replies, s, n, x) {
      PlacesAreReachable(km, replies, Place(s, n, x));
      assert Place(s, n, x).item == x;
    }
    if p :| p in ps && p.item == x {
      PlacesAreReachable(km, replies, p);
    }
  }

  // All places where x is listed call it the same and link it to the same; so it is if there is one place.
  ghost predicate Agreed(km: Model, replies: Replies, x: Uuid, title: string, link: Option<Uuid>) {
    forall s, n: nat :: Reachable(km, replies, s) && ListsAt(km, replies, s, n, x) ==>
      TitleOf(km, FirstReply(km, replies, s, x), n) == title && LinkOf(FirstReply(km, replies, s, x)) == link
  }

  lemma AgreedTitle(km: Model, replies: Replies, x: Uuid, title: string, link: Option<Uuid>)
    requires Linked(km) && Listed(km, replies, x) && Agreed(km, replies, x, title, link)
    ensures LastTitle(km, replies, Places(km, replies), x) == Some(title)
  {
    var s, n: nat :| Reachable(km, replies, s) && ListsAt(km, replies, s, n, x);
    PlacesAreReachable(km, replies, Place(s, n, x));
    var p := LastTitleAt(km, replies, Places(km, replies), x);
    assert p.Some? by {
      assert Place(s, n, x).item == x;
    }
    PlacesAreReachable(km, replies, p.value);
  }

  lemma AgreedLink(km: Model, replies: Replies, x: Uuid, title: string, link: Option<Uuid>)
    requires Linked(km) && Listed(km, replies, x) && Agreed(km, replies, x, title, link)
    ensures LastLink(km, replies, Places(km, replies), x) == link
  {
    var s, n: nat :| Reachable(km, replies, s) && ListsAt(km, replies, s, n, x);
    var q := LastLinkAt(km, replies, Places(km, replies), x);
    if q.Some? {
      PlacesAreReachable(km, replies, q.value);
    } else {
      PlacesAreReachable(km, replies, Place(s, n, x));
      assert Place(s, n, x).item == x;
    }
  }

  // So an item listed in one place only, or in several that agree, is called after the reply to the first
  // question below it, or else by its number, and is linked exactly if that reply names another item.
  lemma NamedAfterFirstReply(km: Model, replies: Replies, x: Uuid, title: string, link: Option<Uuid>)
    requires Linked(km) && Listed(km, replies, x) && Agreed(km, replies, x, title, link)
    ensures NamedBy(Walked(km, replies), x, Some(title), link)
  {
    LastPlaceNames(km, replies, x);
    AgreedTitle(km, replies, x, title, link);
    AgreedLink(km, replies, x, title, link);
  }

  // After post-processing an item has the title that its last place gave to the end of its links, if that
  // one is listed, or else to itself; an item without a link is the end of its links.
  lemma FinalTitle(km: Model, replies: Replies, x: Uuid, y: Uuid, titles: map<Uuid, string>)
    requires Linked(km) && Listed(km, replies, x)
    requires ItemTitles.Resolved(Walked(km, replies).sameAs, Walked(km, replies).titles, titles)
    requires ItemTitles.EndsAt(Walked(km, replies).sameAs, x, y)
    ensures x in titles
    ensures Some(titles[x]) == LastTitle(km, replies, Places(km, replies), if Listed(km, replies, y) then y else x)
  {
    var names := Walked(km, replies);
    NamesTheListed(km, replies, x);
    NamesTheListed(km, replies, y);
    LastPlaceNames(km, replies, x);
    LastPlaceNames(km, replies, y);
    assert ItemTitles.Settled(names.sameAs, names.titles, titles, x);
  }

  // So the final title is that of the last place of the end of the links, kind by kind.
  lemma FinalTitleAt(km: Model, replies: Replies, x: Uuid, y: Uuid, titles: map<Uuid, string>) returns (k: nat)
    requires Linked(km) && Listed(km, replies, x)
    requires ItemTitles.Resolved(Walked(km, replies).sameAs, Walked(km, replies).titles, titles)
    requires ItemTitles.EndsAt(Walked(km, replies).sameAs, x, y)
    ensures x in titles && LastPlace(Places(km, replies), if Listed(km, replies, y) then y else x, k)
    ensures TitledAt(km, replies, Places(km, replies)[k], titles[x])
  {
    FinalTitle(km, replies, x, y, titles);
    ChaptersWalk(km, replies, 0);
    k := LastTitleFrom(km, replies, Places(km, replies), if Listed(km, replies, y) then y else x);
  }

  // x is called what the last place of z says.
  ghost predicate CalledAfter(km: Model, replies: Replies, titles: map<Uuid, string>, x: Uuid, z: Uuid)
    requires Linked(km)
  {
    var ps := Places(km, replies);
    x in titles && exists k: nat :: LastPlace(ps, z, k) && TitledAt(km, replies, ps[k], titles[x])
  }

  lemma AllCalled(km: Model, replies: Replies, titles: map<Uuid, string>)
    requires Linked(km) && ItemTitles.Resolved(Walked(km, replies).sameAs, Walked(km, replies).titles, titles)
    ensures forall x, y :: Listed(km, replies, x) && ItemTitles.EndsAt(Walked(km, replies).sameAs, x, y) ==>
              CalledAfter(km, replies, titles, x, if Listed(km, replies, y) then y else x)
  {
    forall x, y | Listed(km, replies, x) && ItemTitles.EndsAt(Walked(km, replies).sameAs, x, y)
      ensures CalledAfter(km, replies, titles, x, if Listed(km, replies, y) then y else x)
    {
      var k := FinalTitleAt(km, replies, x, y, titles);
    }
  }

  /******* The visitor *******/

  class Visitor {
    const km: Model
    const replies: Replies
    var itemTitles: map<Uuid, string>
    var itemSameAs: map<Uuid, Uuid>

    constructor (km: Model, replies: Replies)
      ensures this.km == km && this.replies == replies && Current() == Names(map[], map[])
    {
      this.km, this.replies, this.itemTitles, this.itemSameAs := km, replies, map[], map[];
    }

    ghost function Current(): Names
      reads this
    {
      Names(itemTitles, itemSameAs)
    }

    // Names every item reachable through the replies and settles the "same as" links, on any linked
    // graph of questions, cyclic or not.
    method Visit()
      requires Linked(km) && Current() == Names(map[], map[])
      modifies this
      ensures var walked := Walked(km, replies);
              itemSameAs == walked.sameAs && ItemTitles.Resolved(walked.sameAs, walked.titles, itemTitles)
      ensures forall x, y :: Listed(km, replies, x) && ItemTitles.EndsAt(itemSameAs, x, y) ==>
                CalledAfter(km, replies, itemTitles, x, if Listed(km, replies, y) then y else x)
    {
      ghost var all := VisitChapters(km, replies, km.chapters);
      ghost var start := Current();
      for i := 0 to |km.chapters|
        invariant PerformAll(start, all) == PerformAll(Current(), VisitChapters(km, replies, km.chapters[i..]))
      {
        assert km.chapters[i..][1..] == km.chapters[i + 1..];
        PerformAppend(Current(), VisitQuestions(km, replies, km.chapters[i].questions, km.chapters[i].uuid),
                      VisitChapters(km, replies, km.chapters[i + 1..]));
        DoQuestions(km.chapters[i].questions, km.chapters[i].uuid);
      }
      itemTitles := ItemTitles.PostProcess(itemSameAs, itemTitles);
      AllCalled(km, replies, itemTitles);
    }

    method DoQuestions(questions: seq<Uuid>, path: Path)
      requires Linked(km) && AllQuestions(km, questions)
      modifies this
      ensures Current() == PerformAll(old(Current()), VisitQuestions(km, replies, questions, path))
      decreases Room(replies, path), 1, |questions|
    {
      for i := 0 to |questions|
        invariant PerformAll(old(Current()), VisitQuestions(km, replies, questions, path))
                  == PerformAll(Current(), VisitQuestions(km, replies, questions[i..], path))
      {
        assert questions[i..][1..] == questions[i + 1..];
        PerformAppend(Current(), VisitQuestion(km, replies, km.questions[questions[i]], path),
                      VisitQuestions(km, replies, questions[i + 1..], path));
        DoQuestion(km.questions[questions[i]], path);
      }
    }

    method DoQuestion(q: Question, path: Path)
      requires Linked(km) && KindLinked(km, q.kind)
      modifies this
      ensures Current() == PerformAll(old(Current()), VisitQuestion(km, replies, q, path))
      decreases Room(replies, path), 0, 0
    {
      var here := Extend(path, q.uuid);
      if here !in replies {
        return;
      }
      RoomUnder(replies, path, here);
      var reply := replies[here];
      if q.kind.ListQ? {
        if reply.ItemListReply? {
          DoItems(q.kind.followups, reply.items, here);
        }
      } else if q.kind.OptionsQ? {
        if reply.AnswerReply? && reply.answer in km.answers {
          RoomShrinks(replies, here, Extend(here, reply.answer));
          DoQuestions(km.answers[reply.answer].followups, Extend(here, reply.answer));
        }
      }
    }

    method DoItems(followups: seq<Uuid>, items: seq<Uuid>, path: Path)
      requires Linked(km) && AllQuestions(km, followups) && path in replies
      modifies this
      ensures Current() == PerformAll(old(Current()), VisitItems(km, replies, followups, items, 0, path))
      decreases Room(replies, path), 0, |items|
    {
      for n := 0 to |items|
        invariant PerformAll(old(Current()), VisitItems(km, replies, followups, items, 0, path))
                  == PerformAll(Current(), VisitItems(km, replies, followups, items, n, path))
      {
        DoItem(followups, items, n, path);
      }
    }

    method DoItem(followups: seq<Uuid>, items: seq<Uuid>, n: nat, path: Path)
      requires Linked(km) && AllQuestions(km, followups) && path in replies && n < |items|
      modifies this
      ensures PerformAll(old(Current()), VisitItems(km, replies, followups, items, n, path))
              == PerformAll(Current(), VisitItems(km, replies, followups, items, n + 1, path))
      decreases Room(replies, path), 0, 0
    {
      var below := Extend(path, items[n]);
      RoomShrinks(replies, path, below);
      ghost var titled := [Title(items[n], "Item " + Decimal(n + 1))];
      ghost var prepared := PrepareTitle(km, replies, followups, items[n], below);
      ghost var nested := VisitQuestions(km, replies, followups, below);
      ghost var rest := VisitItems(km, replies, followups, items, n + 1, path);
      ghost var before := Current();
      itemTitles := itemTitles[items[n] := "Item " + Decimal(n + 1)];
      assert titled[1..] == [];
      assert Current() == PerformAll(before, titled);
      DoPrepare(followups, items[n], below);
      DoQuestions(followups, below);
      PerformAppend(before, titled, prepared);
      PerformAppend(before, titled + prepared, nested);
      PerformAppend(before, titled + prepared + nested, rest);
    }

    method DoPrepare(followups: seq<Uuid>, item: Uuid, itemPath: Path)
      modifies this
      ensures Current() == PerformAll(old(Current()), PrepareTitle(km, replies, followups, item, itemPath))
    {
      if followups == [] {
        return;
      }
      var path := Extend(itemPath, followups[0]);
      if path !in replies {
        return;
      }
      var reply := replies[path];
      if reply.ItemListReply? && |reply.items| > 0 {
        itemSameAs := itemSameAs[item := reply.items[0]];
      } else if reply.ItemSelectReply? && reply.item != "" {
        itemSameAs := itemSameAs[item := reply.item];
      } else if DirectTitle(km, reply).Some? {
        itemTitles := itemTitles[item := DirectTitle(km, reply).value];
      }
      assert forall e: Effect :: [e][1..] == [];
    }
  }

  // Item selections show the final title of the selected item, or a plain word for an unknown one.
  method TitleSelections(replies: Replies, titles: map<Uuid, string>) returns (result: Replies)
    ensures result.Keys == replies.Keys
    ensures forall p :: p in replies ==>
              result[p] == match replies[p]
                           case ItemSelectReply(item, _) =>
                             ItemSelectReply(item, if item in titles then titles[item] else "Item")
                           case reply => reply
  {
    result := replies;
    var todo := replies.Keys;
    while todo != {}
      invariant todo <= replies.Keys == result.Keys
      invariant forall p :: p in todo ==> result[p] == replies[p]
      invariant forall p :: p in replies && p !in todo ==>
                  result[p] == if replies[p].ItemSelectReply?
                               then replies[p].(itemTitle := Shown(titles, replies[p].item))
                               else replies[p]
      decreases todo
    {
      var path :| path in todo;
      todo := todo - {path};
      var reply := result[path];
      if reply.ItemSelectReply? {
        result := result[path := reply.(itemTitle := Shown(titles, reply.item))];
      }
    }
  }

  function Shown(titles: map<Uuid, string>, item: Uuid): string {
    if item in titles then titles[item] else "Item"
  }
}
