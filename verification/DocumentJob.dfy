/** The document worker under the command queue: one worker, its open transaction on the shared
    connection, and the object storage, which knows no transactions. */
module DocumentJob {
  import opened Common
  import opened CommandQueries

  type DocId = string
  type Tenant = string

  datatype DocState = Queued | Processing | Failed | Finished
  datatype Document = Document(tenant: Tenant, state: DocState, size: nat)
  type Docs = map<DocId, Document>

  // A persistent command together with what its body asks for.
  datatype Order = Order(command: Command, tenant: Tenant, doc: DocId)
  type Orders = map<Uuid, Order>

  // What is durable: the committed rows and the stored objects.
  datatype Data = Data(docs: Docs, orders: Orders, objects: map<DocId, string>)

  // How a step of the job ended. Timeouts and crashes may strike between any two statements.
  datatype Flow = Next | NotFound | Broken | Expired | Killed

  const COMPONENT := "doc_worker"

  function Commands(orders: Orders): Table {
    map u | u in orders :: orders[u].command
  }

  /******* What holds in every committed state *******/

  predicate Stored(data: Data, d: DocId) {
    d in data.docs && data.docs[d].state.Finished? ==> d in data.objects && |data.objects[d]| == data.docs[d].size
  }

  predicate Answered(docs: Docs, o: Order) {
    o.command.state.DoneCommand? && o.doc in docs && docs[o.doc].tenant == o.tenant ==>
      docs[o.doc].state.Finished? || docs[o.doc].state.Failed?
  }

  ghost predicate Consistent(data: Data) {
    && (forall d :: d in data.docs ==> Stored(data, d))
    && forall u :: u in data.orders ==> Answered(data.docs, data.orders[u])
  }

  predicate DoneFor(o: Order, d: DocId, t: Tenant) {
    o.doc == d && o.tenant == t && o.command.state.DoneCommand?
  }

  ghost predicate HasDone(orders: Orders, d: DocId, t: Tenant) {
    exists u :: u in orders && DoneFor(orders[u], d, t)
  }

  ghost predicate OneOrderEach(orders: Orders) {
    forall u, v :: u in orders && v in orders && orders[u].doc == orders[v].doc ==> u == v
  }

  // A finished document has a done command, unless it is `late`: its last write was committed by a
  // timeout after the job had ended. Then its only command is not done.
  ghost predicate AgreesAt(docs: Docs, orders: Orders, late: set<DocId>, d: DocId) {
    d in docs && docs[d].state.Finished? ==>
      && (d !in late ==> HasDone(orders, d, docs[d].tenant))
      && (d in late && OneOrderEach(orders) ==> !HasDone(orders, d, docs[d].tenant))
  }

  ghost predicate FinishedIsDone(data: Data, late: set<DocId>) {
    forall d :: AgreesAt(data.docs, data.orders, late, d)
  }

  /******* Storage quota *******/

  ghost function Used(docs: Docs, t: Tenant): nat {
    if docs == map[] then 0
    else
      var d :| d in docs;
      (if docs[d].tenant == t then docs[d].size else 0) + Used(docs - {d}, t)
  }

  lemma {:induction false} UsedSplit(docs: Docs, d: DocId, t: Tenant)
    requires d in docs
    ensures Used(docs, t) == (if docs[d].tenant == t then docs[d].size else 0) + Used(docs - {d}, t)
  {
    var e :| e in docs && Used(docs, t) == (if docs[e].tenant == t then docs[e].size else 0) + Used(docs - {e}, t);
    if d != e {
      UsedSplit(docs - {e}, d, t);
      UsedSplit(docs - {d}, e, t);
      assert docs - {d} - {e} == docs - {e} - {d};
    }
  }

  // Documents that are gone, or new and still empty, use no more.
  lemma {:induction false} UsedMonotone(docs: Docs, from: Docs, t: Tenant)
    requires forall d :: d in docs ==> docs[d].size == 0 || (d in from && from[d] == docs[d])
    ensures Used(docs, t) <= Used(from, t)
  {
    if docs != map[] {
      var d :| d in docs;
      UsedSplit(docs, d, t);
      UsedMonotone(docs - {d}, from - {d}, t);
      if d in from {
        UsedSplit(from, d, t);
      } else {
        assert from - {d} == from;
      }
    }
  }

  lemma UsedUpdate(docs: Docs, d: DocId, doc: Document, t: Tenant)
    requires d in docs && docs[d].tenant == doc.tenant
    ensures Used(docs[d := doc], t) == Used(docs, t) + if doc.tenant == t then doc.size - docs[d].size else 0
  {
    UsedSplit(docs, d, t);
    UsedSplit(docs[d := doc], d, t);
    assert docs[d := doc] - {d} == docs - {d};
  }

  // The sum, document by document.
  lemma UsedMeans(docs: Docs, t: Tenant)
    ensures Used(map[], t) == 0
    ensures forall d :: d in docs ==>
              Used(docs, t) == Used(docs - {d}, t) + if docs[d].tenant == t then docs[d].size else 0
  {
    forall d | d in docs
      ensures Used(docs, t) == Used(docs - {d}, t) + if docs[d].tenant == t then docs[d].size else 0
    {
      UsedSplit(docs, d, t);
    }
  }

  ghost predicate NoMoreUsed(from: Docs, to: Docs) {
    forall t :: Used(to, t) <= Used(from, t)
  }

  function Abs(x: int): nat {
    if x < 0 then -x else x
  }

  // Maximal document size, storage limits of tenants, and what they store besides documents.
  datatype Config = Config(maxDocSize: Option<nat>, limits: map<Tenant, int>, other: map<Tenant, nat>, timeouts: bool)

  function Other(config: Config, t: Tenant): nat {
    if t in config.other then config.other[t] else 0
  }

  ghost predicate WithinQuota(config: Config, docs: Docs, t: Tenant) {
    t in config.limits ==> Used(docs, t) + Other(config, t) < Abs(config.limits[t])
  }

  // All that a tenant stores stays below the absolute value of its limit.
  lemma QuotaMeans(config: Config, docs: Docs, t: Tenant)
    requires t in config.limits
    ensures WithinQuota(config, docs, t) <==>
            var limit, other := config.limits[t], if t in config.other then config.other[t] else 0;
            Used(docs, t) + other < limit || Used(docs, t) + other < -limit
  {
  }

  // A job fails only if a step of it failed, its document was finished before, or what was rendered is too
  // large or has no room.
  ghost predicate MayFail(config: Config, docs: Docs, o: Order, failed: bool, size: nat) {
    || failed
    || (o.doc in docs && docs[o.doc].state.Finished?)
    || (config.maxDocSize.Some? && size > config.maxDocSize.value)
    || (o.tenant in config.limits
        && var limit, other := config.limits[o.tenant], if o.tenant in config.other then config.other[o.tenant] else 0;
           var used := Used(docs, o.tenant) + other;
           size + used >= limit && size + used >= -limit)
  }

  // How a job that ends normally leaves its document, if there is one: finished with what was rendered, or
  // failed for a reason.
  ghost predicate Answer(config: Config, before: Docs, after: Docs, o: Order, failed: bool, size: nat) {
    o.doc in after && after[o.doc].tenant == o.tenant ==>
      || (after[o.doc].state.Finished? && after[o.doc].size == size && !failed
          && (config.maxDocSize.Some? ==> size <= config.maxDocSize.value))
      || (after[o.doc].state.Failed? && MayFail(config, before, o, failed, size))
  }

  // Meanwhile no tenant has come to use more, and no document was finished.
  ghost predicate Since(before: Docs, now: Docs) {
    && NoMoreUsed(before, now)
    && forall d :: d in now && now[d].state.Finished? ==> d in before && before[d].state.Finished?
  }

  lemma MayFailBefore(config: Config, before: Docs, now: Docs, o: Order, failed: bool, size: nat)
    requires Since(before, now) && MayFail(config, now, o, failed, size)
    ensures MayFail(config, before, o, failed, size)
  {
    assert Used(now, o.tenant) <= Used(before, o.tenant);
  }

  lemma AnswerBefore(config: Config, before: Docs, now: Docs, after: Docs, o: Order, failed: bool, size: nat)
    requires Since(before, now) && Answer(config, now, after, o, failed, size)
    ensures Answer(config, before, after, o, failed, size)
  {
    if MayFail(config, now, o, failed, size) {
      MayFailBefore(config, before, now, o, failed, size);
    }
  }

  // The answer stays while others act.
  lemma AnswerStays(config: Config, before: Docs, a: Data, b: Data, written: Docs, u: Uuid, failed: bool, size: nat)
    requires Moved(a, b, written) && u in a.orders && written.Keys <= a.docs.Keys
    requires Answer(config, before, a.docs + written, a.orders[u], failed, size)
    ensures Answer(config, before, b.docs + written, a.orders[u], failed, size)
  {
  }

  lemma StateSince(docs: Docs, d: DocId, state: DocState)
    requires d in docs && !state.Finished?
    ensures Since(docs, docs[d := docs[d].(state := state)])
  {
    forall t ensures Used(docs[d := docs[d].(state := state)], t) <= Used(docs, t) {
      UsedUpdate(docs, d, docs[d].(state := state), t);
    }
  }

  lemma SinceTwice(a: Docs, b: Docs, c: Docs)
    requires Since(a, b) && Since(b, c)
    ensures Since(a, c)
  {
    forall t ensures Used(c, t) <= Used(a, t) {
      assert Used(c, t) <= Used(b, t) <= Used(a, t);
    }
  }

  lemma MovedSince(a: Data, b: Data, written: Docs)
    requires Moved(a, b, written) && NoMoreUsed(a.docs + written, b.docs + written)
    ensures Since(a.docs + written, b.docs + written)
  {
  }

  /******* Others *******/

  // What the rest of the system may do meanwhile. It cannot delete rows the transaction has written.
  predicate Moved(a: Data, b: Data, written: Docs) {
    && (forall d :: d in b.docs && d in a.docs ==> b.docs[d] == a.docs[d])
    && (forall d :: d in b.docs && d !in a.docs ==> b.docs[d].state.Queued? && b.docs[d].size == 0)
    && (forall u :: u in a.orders ==> u in b.orders && b.orders[u] == a.orders[u])
    && (forall u :: u in a.orders && a.orders[u].doc in b.docs ==> a.orders[u].doc in a.docs)
    && (forall u :: u in b.orders && u !in a.orders ==> b.orders[u].command.state.NewCommand?)
    && (forall d :: d in b.docs && d in a.objects ==> d in b.objects && b.objects[d] == a.objects[d])
    && (forall d :: d in written && d in a.docs ==> d in b.docs)
  }

  predicate SameOrder(a: Data, b: Data, u: Uuid) {
    u in a.orders ==> u in b.orders && b.orders[u] == a.orders[u]
  }

  lemma MovedAgrees(a: Data, b: Data, written: Docs, late: set<DocId>, d: DocId)
    requires Moved(a, b, written) && AgreesAt(a.docs, a.orders, late, d)
    ensures AgreesAt(b.docs, b.orders, late, d)
  {
    if d in b.docs && b.docs[d].state.Finished? {
      var t := b.docs[d].tenant;
      if u :| u in a.orders && DoneFor(a.orders[u], d, t) {
        assert u in b.orders && DoneFor(b.orders[u], d, t);
      }
      assert OneOrderEach(b.orders) ==> OneOrderEach(a.orders);
    }
  }

  lemma MovedKeeps(config: Config, a: Data, b: Data, written: Docs, late: set<DocId>)
    requires Moved(a, b, written) && Consistent(a) && FinishedIsDone(a, late) && written.Keys <= a.docs.Keys
    ensures Consistent(b) && FinishedIsDone(b, late)
    ensures NoMoreUsed(a.docs, b.docs) && NoMoreUsed(a.docs + written, b.docs + written)
  {
    forall d | d in b.docs ensures Stored(b, d) {
      assert d in a.docs ==> Stored(a, d);
    }
    forall u | u in b.orders ensures Answered(b.docs, b.orders[u]) {
      assert u in a.orders ==> Answered(a.docs, a.orders[u]);
    }
    forall d ensures AgreesAt(b.docs, b.orders, late, d) {
      MovedAgrees(a, b, written, late, d);
    }
    forall t ensures Used(b.docs, t) <= Used(a.docs, t) && Used(b.docs + written, t) <= Used(a.docs + written, t) {
      UsedMonotone(b.docs, a.docs, t);
      UsedMonotone(b.docs + written, a.docs + written, t);
    }
  }

  /******* The closing commit *******/

  function Report(f: Flow, order: Order, limit: nat, attempt: nat, at: int): Order
    requires f.Next? || f.Broken? || f.Expired?
  {
    var outcome := match f case Next => Succeeded case Broken => Raised case Expired => TimedOut;
    order.(command := ReportUpdate(order.command, limit, attempt, outcome, at))
  }

  // The report only concerns the command, and no end of a job takes its limit down.
  lemma ReportOrder(f: Flow, order: Order, limit: nat, attempt: nat, at: int)
    requires f.Next? || f.Broken? || f.Expired?
    ensures var p := Report(f, order, limit, attempt, at);
            && p.doc == order.doc && p.tenant == order.tenant
            && p.command.component == order.command.component && p.command.createdAt == order.command.createdAt
            && p.command.attempts == attempt && p.command.maxAttempts == order.command.maxAttempts
            && p.command.state == if f.Next? then DoneCommand else ErrorCommand
  {
  }

  function Commit(data: Data, written: Docs, u: Uuid, order: Order): Data {
    Data(data.docs + written, data.orders[u := order], data.objects)
  }

  // The transaction writes rows that exist, which nobody can delete meanwhile, and never moves them to another tenant.
  predicate OwnRows(data: Data, written: Docs) {
    forall d :: d in written ==> d in data.docs && written[d].tenant == data.docs[d].tenant
  }

  // What an execution may leave in its transaction before the report is written.
  predicate Concluded(data: Data, written: Docs, u: Uuid, f: Flow, closed: bool) {
    && u in data.orders && OwnRows(data, written)
    && (forall d :: d in written ==> written[d].state.Failed? || written[d].state.Finished?)
    && (forall d :: d in written && written[d].state.Finished? ==>
          && d == data.orders[u].doc && written[d].tenant == data.orders[u].tenant && !data.docs[d].state.Finished?
          && d in data.objects && |data.objects[d]| == written[d].size
          && (f.Next? || (f.Expired? && closed)))
    && (f.Next? ==> var o := data.orders[u];
          o.doc in data.docs && data.docs[o.doc].tenant == o.tenant ==> o.doc in written)
  }

  lemma OneOrderBefore(orders: Orders, u: Uuid, order: Order)
    requires u in orders && order.doc == orders[u].doc && OneOrderEach(orders[u := order])
    ensures OneOrderEach(orders)
  {
    forall v, w | v in orders && w in orders && orders[v].doc == orders[w].doc ensures v == w {
      assert orders[u := order][v].doc == orders[u := order][w].doc;
    }
  }

  // The report changes nobody else's answer.
  lemma SameAnswers(orders: Orders, u: Uuid, order: Order, d: DocId, t: Tenant)
    requires u in orders && !orders[u].command.state.DoneCommand?
    ensures HasDone(orders[u := order], d, t) <==> HasDone(orders, d, t) || DoneFor(order, d, t)
  {
    var after := orders[u := order];
    if v :| v in orders && DoneFor(orders[v], d, t) {
      assert v != u && v in after && DoneFor(after[v], d, t);
    }
    if DoneFor(order, d, t) {
      assert u in after && DoneFor(after[u], d, t);
    }
  }

  // Among the orders of a document one that is not done leaves no other.
  lemma OnlyOrder(orders: Orders, u: Uuid, d: DocId, t: Tenant)
    requires OneOrderEach(orders) && u in orders && orders[u].doc == d && !orders[u].command.state.DoneCommand?
    ensures !HasDone(orders, d, t)
  {
  }

  lemma CommitWritten(data: Data, written: Docs, u: Uuid, f: Flow, closed: bool, order: Order, late: set<DocId>,
                      d: DocId)
    requires f.Next? || f.Broken? || f.Expired?
    requires Concluded(data, written, u, f, closed) && d in written
    requires order.tenant == data.orders[u].tenant && order.doc == data.orders[u].doc
    requires order.command.state.DoneCommand? <==> f.Next?
    ensures AgreesAt(data.docs + written, data.orders[u := order], Late(late, written, f), d)
  {
    var after := Commit(data, written, u, order);
    if written[d].state.Finished? {
      if f.Next? {
        assert u in after.orders && DoneFor(after.orders[u], d, written[d].tenant);
      } else if OneOrderEach(after.orders) {
        OnlyOrder(after.orders, u, d, written[d].tenant);
      }
    }
  }

  lemma CommitOthers(data: Data, written: Docs, u: Uuid, f: Flow, closed: bool, order: Order, late: set<DocId>,
                     d: DocId)
    requires f.Next? || f.Broken? || f.Expired?
    requires Concluded(data, written, u, f, closed) && d !in written && AgreesAt(data.docs, data.orders, late, d)
    requires !data.orders[u].command.state.DoneCommand?
    requires order.tenant == data.orders[u].tenant && order.doc == data.orders[u].doc
    requires order.command.state.DoneCommand? <==> f.Next?
    ensures AgreesAt(data.docs + written, data.orders[u := order], Late(late, written, f), d)
  {
    if d in data.docs {
      SameAnswers(data.orders, u, order, d, data.docs[d].tenant);
      if OneOrderEach(data.orders[u := order]) {
        OneOrderBefore(data.orders, u, order);
      }
    }
  }

  // The documents that are late after the commit of an execution.
  function Late(late: set<DocId>, written: Docs, f: Flow): set<DocId> {
    (late - written.Keys) + (if f.Expired? then written.Keys else {})
  }

  lemma CommitConsistent(data: Data, written: Docs, u: Uuid, f: Flow, closed: bool, order: Order)
    requires f.Next? || f.Broken? || f.Expired?
    requires Concluded(data, written, u, f, closed) && Consistent(data)
    requires order.tenant == data.orders[u].tenant && order.doc == data.orders[u].doc
    requires order.command.state.DoneCommand? <==> f.Next?
    ensures Consistent(Commit(data, written, u, order))
  {
    var after := Commit(data, written, u, order);
    forall d | d in after.docs ensures Stored(after, d) {
      assert d in data.docs ==> Stored(data, d);
    }
    forall v | v in after.orders ensures Answered(after.docs, after.orders[v]) {
      assert v in data.orders && Answered(data.docs, data.orders[v]);
    }
  }

  lemma CommitKeeps(data: Data, written: Docs, u: Uuid, f: Flow, closed: bool, order: Order, late: set<DocId>)
    requires f.Next? || f.Broken? || f.Expired?
    requires Concluded(data, written, u, f, closed) && Consistent(data) && FinishedIsDone(data, late)
    requires !data.orders[u].command.state.DoneCommand?
    requires order.tenant == data.orders[u].tenant && order.doc == data.orders[u].doc
    requires order.command.state.DoneCommand? <==> f.Next?
    ensures Consistent(Commit(data, written, u, order))
    ensures FinishedIsDone(Commit(data, written, u, order), Late(late, written, f))
  {
    CommitConsistent(data, written, u, f, closed, order);
    var after, lost := Commit(data, written, u, order), Late(late, written, f);
    forall d ensures AgreesAt(after.docs, after.orders, lost, d) {
      if d in written {
        CommitWritten(data, written, u, f, closed, order, late, d);
      } else {
        assert AgreesAt(data.docs, data.orders, late, d);
        CommitOthers(data, written, u, f, closed, order, late, d);
      }
    }
  }

  /******* What the invariants say of one command *******/

  // A command that is done has its answer: the document with its object, a failure, or no such document.
  lemma DoneMeans(data: Data, u: Uuid)
    requires Consistent(data) && u in data.orders && data.orders[u].command.state.DoneCommand?
    ensures var o := data.orders[u];
            || o.doc !in data.docs || data.docs[o.doc].tenant != o.tenant || data.docs[o.doc].state.Failed?
            || (data.docs[o.doc].state.Finished? && o.doc in data.objects
                 && |data.objects[o.doc]| == data.docs[o.doc].size)
  {
    var d := data.orders[u].doc;
    assert Answered(data.docs, data.orders[u]) && (d in data.docs ==> Stored(data, d));
  }

  // With one command per document, a finished document has a done command unless a late timeout struck.
  lemma FinishedMeans(data: Data, late: set<DocId>, u: Uuid)
    requires FinishedIsDone(data, late) && OneOrderEach(data.orders) && u in data.orders
    requires var o := data.orders[u];
             o.doc in data.docs && data.docs[o.doc].tenant == o.tenant && data.docs[o.doc].state.Finished?
    ensures data.orders[u].command.state.DoneCommand? <==> data.orders[u].doc !in late
  {
    var o := data.orders[u];
    assert AgreesAt(data.docs, data.orders, late, o.doc);
    if o.command.state.DoneCommand? {
      assert DoneFor(o, o.doc, o.tenant);
    }
  }

  // The late timeout: the job is over and no longer known, so its finished document is committed along
  // with the error.
  lemma LateTimeout() returns (data: Data, written: Docs, u: Uuid, after: Data)
    ensures Consistent(data) && FinishedIsDone(data, {}) && Concluded(data, written, u, Expired, true)
    ensures after == Commit(data, written, u, Report(Expired, data.orders[u], 5, 1, 0))
    ensures OneOrderEach(after.orders) && u in after.orders && after.orders[u].command.state.ErrorCommand?
    ensures after.orders[u].doc in after.docs && after.docs[after.orders[u].doc].state.Finished?
  {
    var command := Command(NewCommand, COMPONENT, 1, 5, 0, 0);
    data := Data(map["d" := Document("t", Queued, 0)], map["u" := Order(command, "t", "d")], map["d" := "pdf"]);
    written := map["d" := Document("t", Finished, 3)];
    u := "u";
    after := Commit(data, written, u, Report(Expired, data.orders[u], 5, 1, 0));
  }

  /******* The worker *******/

  class DocumentWorker {
    const config: Config
    var data: Data
    var written: Docs             // row versions of the open transaction
    var currentJob: Option<DocId>
    ghost var late: set<DocId>
    ghost const within: set<Tenant>  // tenants that started within their quota

    ghost predicate Valid()
      reads this
    {
      && Consistent(data) && FinishedIsDone(data, late) && OwnRows(data, written)
      && forall t :: t in within ==> WithinQuota(config, data.docs, t) && WithinQuota(config, data.docs + written, t)
    }

    constructor (config: Config, data: Data, ghost late: set<DocId>, ghost within: set<Tenant>)
      requires Consistent(data) && FinishedIsDone(data, late)
      requires forall t :: t in within ==> WithinQuota(config, data.docs, t)
      ensures Valid() && written == map[] && currentJob == None
      ensures this.config == config && this.data == data && this.late == late && this.within == within
    {
      this.config, this.data, this.late, this.within := config, data, late, within;
      this.written, this.currentJob := map[], None;
      new;
      assert data.docs + map[] == data.docs;
    }

    // The job holds its document's row, or the document is gone for good.
    ghost predicate Holding(u: Uuid)
      reads this
    {
      && u in data.orders && !data.orders[u].command.state.DoneCommand?
      && var o := data.orders[u];
         && written.Keys <= {o.doc}
         && (o.doc in data.docs ==>
               o.doc in written && data.docs[o.doc].tenant == o.tenant && !data.docs[o.doc].state.Finished?)
    }

    // The order is under way, and its document's row is the only one that may be written.
    ghost predicate OnlyRow(u: Uuid)
      reads this
    {
      && u in data.orders && !data.orders[u].command.state.DoneCommand?
      && written.Keys <= {data.orders[u].doc}
    }

    // Time passes: others commit, the time limit may be exceeded, the process may die.
    method Interlude() returns (f: Flow)
      requires Valid()
      modifies this`data
      ensures Valid() && Moved(old(data), data, written) && Since(old(View()), View())
      ensures f.Next? || f.Killed? || (f.Expired? && config.timeouts)
    {
      assert Moved(data, data, written);
      var next :| Moved(data, next, written);
      MovedKeeps(config, data, next, written, late);
      MovedSince(data, next, written);
      data := next;
      var choice: Flow :| choice.Next? || choice.Killed? || (choice.Expired? && config.timeouts);
      f := choice;
    }

    // Time passes after the end of a job, with or without an answer.
    method Pause(u: Uuid, ghost before: Docs, ghost answered: bool, ghost failed: bool, ghost size: nat)
      returns (f: Flow)
      requires Valid() && u in data.orders
      requires answered ==> Answer(config, before, View(), data.orders[u], failed, size)
      modifies this`data
      ensures Valid() && Moved(old(data), data, written) && Since(old(View()), View())
      ensures answered ==> Answer(config, before, View(), data.orders[u], failed, size)
      ensures f.Next? || f.Killed? || (f.Expired? && config.timeouts)
    {
      f := Interlude();
      if answered {
        AnswerStays(config, before, old(data), data, written, u, failed, size);
      }
    }

    // A step of the job that leaves the database alone; it may fail.
    method Step() returns (f: Flow, ghost failed: bool)
      requires Valid()
      modifies this`data
      ensures Valid() && Moved(old(data), data, written) && Since(old(View()), View())
      ensures f.Next? || f.Broken? || f.Killed? || (f.Expired? && config.timeouts)
      ensures f.Broken? <==> failed
    {
      f := Interlude();
      var good: bool :| true;
      failed := f.Next? && !good;
      if f.Next? && !good {
        f := Broken;
      }
    }

    function View(): Docs
      reads this
    {
      data.docs + written
    }

    method Write(d: DocId, doc: Document)
      requires Valid() && d in View() && doc.tenant == View()[d].tenant
      requires forall t :: t in within ==> WithinQuota(config, View()[d := doc], t)
      modifies this`written
      ensures Valid() && written == old(written)[d := doc]
    {
      assert data.docs + written[d := doc] == View()[d := doc];
      written := written[d := doc];
    }

    // UPDATE of the state only; says whether a row was changed.
    method SetState(d: DocId, state: DocState) returns (changed: bool)
      requires Valid()
      modifies this`written
      ensures Valid() && changed == (d in data.docs)
      ensures written == if changed then old(written)[d := old(View())[d].(state := state)] else old(written)
    {
      changed := d in View();
      if changed {
        var doc := View()[d].(state := state);
        forall t | t in within ensures WithinQuota(config, View()[d := doc], t) {
          UsedUpdate(View(), d, doc, t);
        }
        Write(d, doc);
      }
    }

    /******* The job *******/

    // Nothing written yet, or the row is held: how a job that ends early leaves its transaction.
    ghost predicate Begun(u: Uuid)
      reads this
    {
      && u in data.orders && !data.orders[u].command.state.DoneCommand?
      && (written == map[] || Holding(u))
    }

    // The document, if it is still there, is left in the given state.
    ghost predicate Ended(u: Uuid, state: DocState)
      reads this
    {
      && u in data.orders
      && var o := data.orders[u];
         o.doc in data.docs && data.docs[o.doc].tenant == o.tenant ==> o.doc in written && written[o.doc].state == state
    }

    // There is room for a document of this size.
    ghost predicate Room(t: Tenant, size: nat)
      reads this
    {
      t in config.limits ==> size + Used(View(), t) + Other(config, t) < Abs(config.limits[t])
    }

    method GetDocument(u: Uuid) returns (f: Flow)
      requires Valid() && Begun(u) && written == map[]
      modifies this`data, this`written
      ensures Valid() && SameOrder(old(data), data, u)
      ensures f.Next? ==> Holding(u)
      ensures f.Next? ==>
                var d := data.orders[u].doc;
                written == if d in data.docs then map[d := data.docs[d].(state := Processing)] else map[]
      ensures !f.Next? ==> written == map[]
      ensures Since(old(View()), View())
      ensures f.Broken? ==> var o := data.orders[u]; o.doc in data.docs && data.docs[o.doc].state.Finished?
      ensures f.NotFound? ==> var o := data.orders[u]; o.doc in data.docs ==> data.docs[o.doc].tenant != o.tenant
      ensures f.Expired? ==> config.timeouts
    {
      var o := data.orders[u];
      f := Interlude();
      if !f.Next? {
        return;
      }
      if o.doc !in View() || View()[o.doc].tenant != o.tenant {
        return NotFound;
      }
      if View()[o.doc].state.Finished? {
        return Broken;
      }
      ghost var found := View();
      f := SetProcessing(u);
      SinceTwice(old(View()), found, View());
    }

    // The document was seen; it may be deleted just before the update.
    method SetProcessing(u: Uuid) returns (f: Flow)
      requires Valid() && Begun(u) && written == map[]
      requires var o := data.orders[u];
               o.doc in data.docs && data.docs[o.doc].tenant == o.tenant && !data.docs[o.doc].state.Finished?
      modifies this`data, this`written
      ensures Valid() && SameOrder(old(data), data, u) && Since(old(View()), View())
      ensures f.Next? ==> Holding(u)
      ensures f.Next? ==>
                var d := data.orders[u].doc;
                written == if d in data.docs then map[d := data.docs[d].(state := Processing)] else map[]
      ensures !f.Next? ==> written == map[]
      ensures f.Next? || f.Killed? || (f.Expired? && config.timeouts)
    {
      f := Interlude();
      if !f.Next? {
        return;
      }
      ghost var seen := View();
      var d := data.orders[u].doc;
      var changed := SetState(d, Processing);
      if changed {
        StateSince(seen, d, Processing);
        assert View() == seen[d := seen[d].(state := Processing)];
        SinceTwice(old(View()), seen, View());
      }
    }

    method BuildDocument(u: Uuid) returns (f: Flow, content: string, ghost failed: bool)
      requires Valid() && Holding(u)
      modifies this`data
      ensures Valid() && Holding(u) && SameOrder(old(data), data, u) && Since(old(View()), View())
      ensures f.Next? ==> !failed
      ensures f.Broken? ==>
                || failed
                || (config.maxDocSize.Some? && |content| > config.maxDocSize.value)
                || var t := data.orders[u].tenant;
                   && t in config.limits
                   && var used := Used(View(), t) + if t in config.other then config.other[t] else 0;
                      |content| + used >= config.limits[t] && |content| + used >= -config.limits[t]
      ensures f.Next? ==> Room(data.orders[u].tenant, |content|)
      ensures f.Next? && config.maxDocSize.Some? ==> |content| <= config.maxDocSize.value
      ensures !f.NotFound? && (f.Expired? ==> config.timeouts)
    {
      f, failed := Step();
      var rendered: string :| true;
      content := rendered;
      if !f.Next? {
        return;
      }
      if config.maxDocSize.Some? && |content| > config.maxDocSize.value {
        return Broken, content, failed;
      }
      f := Interlude();
      if !f.Next? {
        return;
      }
      var t := data.orders[u].tenant;
      var used := SumFileSizes(t);
      if t in config.limits && |content| + used >= Abs(config.limits[t]) {
        f := Broken;
      }
    }

    // What the tenant's documents and other files take up, as the transaction sees it.
    method SumFileSizes(t: Tenant) returns (used: nat)
      ensures used == Used(View(), t) + if t in config.other then config.other[t] else 0
    {
      used := 0;
      var rest := View();
      while rest != map[]
        invariant used + Used(rest, t) == Used(View(), t)
        decreases |rest|
      {
        var d :| d in rest;
        UsedSplit(rest, d, t);
        assert |rest - {d}| < |rest| by {
          assert (rest - {d}).Keys == rest.Keys - {d};
        }
        used := used + if rest[d].tenant == t then rest[d].size else 0;
        rest := rest - {d};
      }
      used := used + Other(config, t);
    }

    method StoreDocument(u: Uuid, content: string) returns (f: Flow, ghost failed: bool)
      requires Valid() && Holding(u) && Room(data.orders[u].tenant, |content|)
      modifies this`data
      ensures Valid() && Holding(u) && Room(data.orders[u].tenant, |content|) && SameOrder(old(data), data, u)
      ensures f.Next? ==> data.orders[u].doc in data.objects && data.objects[data.orders[u].doc] == content
      ensures !f.NotFound? && (f.Expired? ==> config.timeouts) && (f.Broken? <==> failed)
    {
      f, failed := Step();
      if f.Next? {
        data := data.(objects := data.objects[data.orders[u].doc := content]);
      }
    }

    method Finalize(u: Uuid, content: string) returns (f: Flow, ghost failed: bool)
      requires Valid() && Holding(u) && Room(data.orders[u].tenant, |content|)
      requires data.orders[u].doc in data.objects && data.objects[data.orders[u].doc] == content
      modifies this`data, this`written
      ensures Valid() && OnlyRow(u) && SameOrder(old(data), data, u)
      ensures if f.Next? then Concluded(data, written, u, Next, false) && Ended(u, Finished) else Holding(u)
      ensures f.Next? ==> data.orders[u].doc in written ==> written[data.orders[u].doc].size == |content|
      ensures !f.NotFound? && (f.Expired? ==> config.timeouts) && (f.Broken? <==> failed)
    {
      f, failed := Step();
      if f.Next? && data.orders[u].doc in View() {
        var d := data.orders[u].doc;
        var doc := View()[d].(state := Finished, size := |content|);
        forall t | t in within ensures WithinQuota(config, View()[d := doc], t) {
          UsedUpdate(View(), d, doc, t);
        }
        Write(d, doc);
      }
    }

    // Compliance, document, template, rendering, storage, record; the first step that fails ends it.
    method RunSteps(u: Uuid) returns (f: Flow, ghost failed: bool, ghost size: nat)
      requires Valid() && Begun(u) && written == map[]
      modifies this`data, this`written
      ensures Valid() && OnlyRow(u) && SameOrder(old(data), data, u)
      ensures if f.Next? then Concluded(data, written, u, Next, false) && Ended(u, Finished) else Begun(u)
      ensures f.Next? ==> Answer(config, old(View()), View(), data.orders[u], failed, size)
      ensures f.Broken? ==> MayFail(config, old(View()), data.orders[u], failed, size)
      ensures f.NotFound? ==> Concluded(data, written, u, Next, false)
      ensures f.NotFound? ==> var o := data.orders[u]; o.doc in data.docs ==> data.docs[o.doc].tenant != o.tenant
      ensures f.Expired? ==> config.timeouts
    {
      size := 0;
      f, failed := Step();
      if !f.Next? {
        return;
      }
      ghost var begun := View();
      f := GetDocument(u);
      SinceTwice(old(View()), begun, View());
      if !f.Next? {
        return;
      }
      ghost var held := View();
      f, failed := Step();
      SinceTwice(old(View()), held, View());
      if !f.Next? {
        return;
      }
      ghost var prepared := View();
      var content;
      f, content, failed := BuildDocument(u);
      size := |content|;
      SinceTwice(old(View()), prepared, View());
      if !f.Next? {
        if f.Broken? {
          MayFailBefore(config, old(View()), View(), data.orders[u], failed, size);
        }
        return;
      }
      f, failed := StoreDocument(u, content);
      if !f.Next? {
        return;
      }
      f, failed := Finalize(u, content);
    }

    method CheckDocumentExists(u: Uuid) returns (f: Flow, found: bool)
      requires Valid() && Begun(u)
      modifies this`data
      ensures Valid() && SameOrder(old(data), data, u) && Begun(u)
      ensures var o := data.orders[u]; f.Next? ==> found == (o.doc in data.docs && data.docs[o.doc].tenant == o.tenant)
      ensures f.Next? || f.Killed? || (f.Expired? && config.timeouts)
    {
      var o := data.orders[u];
      f := Interlude();
      found := o.doc in View() && View()[o.doc].tenant == o.tenant;
    }

    method SetFailed(u: Uuid) returns (f: Flow)
      requires Valid() && Begun(u)
      modifies this`data, this`written
      ensures Valid() && OnlyRow(u) && SameOrder(old(data), data, u)
      ensures f.Next? || f.Broken? ==> Concluded(data, written, u, f, false)
      ensures f.Next? ==> Ended(u, Failed)
      ensures f.Broken? ==> data.orders[u].doc !in data.docs
      ensures f.Expired? || f.Killed? ==> Begun(u)
      ensures !f.NotFound? && (f.Expired? ==> config.timeouts)
    {
      var found;
      f, found := CheckDocumentExists(u);
      if f.Next? && found {
        f := TrySetFailed(u);
      }
    }

    // The document was seen; it may be deleted just before the update.
    method TrySetFailed(u: Uuid) returns (f: Flow)
      requires Valid() && Begun(u)
      requires data.orders[u].doc in data.docs && data.docs[data.orders[u].doc].tenant == data.orders[u].tenant
      modifies this`data, this`written
      ensures Valid() && OnlyRow(u) && SameOrder(old(data), data, u)
      ensures f.Next? || f.Broken? ==> Concluded(data, written, u, f, false)
      ensures f.Next? ==> Ended(u, Failed)
      ensures f.Broken? ==> data.orders[u].doc !in data.docs
      ensures f.Expired? || f.Killed? ==> Begun(u)
      ensures !f.NotFound? && (f.Expired? ==> config.timeouts)
    {
      f := Interlude();
      if !f.Next? {
        return;
      }
      var changed := SetState(data.orders[u].doc, Failed);
      if !changed {
        f := Broken;
      }
    }

    method RunJob(u: Uuid) returns (f: Flow, ghost failed: bool, ghost size: nat)
      requires Valid() && Begun(u) && written == map[]
      modifies this`data, this`written
      ensures Valid() && OnlyRow(u) && SameOrder(old(data), data, u)
      ensures f.Next? || f.Broken? ==> Concluded(data, written, u, f, false)
      ensures f.Next? ==> Answer(config, old(View()), View(), data.orders[u], failed, size)
      ensures f.Broken? ==> data.orders[u].doc !in data.docs
      ensures f.Expired? || f.Killed? ==> Begun(u)
      ensures !f.NotFound? && (f.Expired? ==> config.timeouts)
    {
      f, failed, size := RunSteps(u);
      if f.NotFound? {
        f := Next;
      } else if f.Broken? {
        f := SetFailed(u);
      }
    }

    // After a timeout the current job, if any, tells whose document to mark as failed. It still does if
    // the timeout strikes when the job has written its last row, but no more once it is cleared.
    method Work(u: Uuid) returns (f: Flow, ghost failed: bool, ghost size: nat)
      requires Valid() && Begun(u) && written == map[]
      modifies this`data, this`written, this`currentJob
      ensures Valid() && SameOrder(old(data), data, u)
      ensures f.Next? || f.Broken? ==> Concluded(data, written, u, f, false)
      ensures f.Next? ==> currentJob.None? && Answer(config, old(View()), View(), data.orders[u], failed, size)
      ensures f.Broken? ==> data.orders[u].doc !in data.docs
      ensures f.Expired? && currentJob.None? ==> Concluded(data, written, u, f, true)
      ensures f.Expired? && currentJob.Some? ==>
              OnlyRow(u) && (written == map[] || currentJob == Some(data.orders[u].doc))
      ensures !f.NotFound? && (f.Expired? ==> config.timeouts)
    {
      failed, size := false, 0;
      f := Interlude();
      if !f.Next? {
        return;
      }
      currentJob := Some(data.orders[u].doc);
      ghost var begun := View();
      f, failed, size := RunJob(u);
      if f.Next? || f.Broken? {
        var g := Pause(u, begun, f.Next?, failed, size);
        f := if g.Next? then f else g;
      }
      if f.Next? {
        AnswerBefore(config, old(View()), begun, View(), data.orders[u], failed, size);
        currentJob := None;
        f := Pause(u, old(View()), true, failed, size);
      }
    }

    /******* One pass of the queue *******/

    method ProcessTimeout(u: Uuid) returns (closed: bool)
      requires Valid()
      requires currentJob.None? ==> Concluded(data, written, u, Expired, true)
      requires currentJob.Some? ==> OnlyRow(u) && (written == map[] || currentJob == Some(data.orders[u].doc))
      modifies this`written, this`currentJob
      ensures Valid() && currentJob.None? && Concluded(data, written, u, Expired, closed)
      ensures closed == old(currentJob).None?
      ensures written
              == match old(currentJob)
                 case Some(d) => if d in data.docs then old(written)[d := old(View())[d].(state := Failed)]
                                 else old(written)
                 case None => old(written)
    {
      closed := currentJob.None?;
      if currentJob.Some? {
        var changed := SetState(currentJob.value, Failed);
        currentJob := None;
      }
    }

    // The start is committed before the work begins.
    method Start(u: Uuid, at: int)
      requires Valid() && written == map[] && u in data.orders && !data.orders[u].command.state.DoneCommand?
      modifies this`data
      ensures Valid() && Begun(u)
      ensures var o := old(data).orders[u];
              var c := StartUpdate(o.command, o.command.attempts + 1, at);
              data == old(data).(orders := old(data).orders[u := o.(command := c)])
    {
      var o := data.orders[u];
      var started := o.(command := StartUpdate(o.command, o.command.attempts + 1, at));
      CommitKeeps(data, written, u, Broken, false, started, late);
      assert data.docs + map[] == data.docs;
      assert Late(late, written, Broken) == late;
      data := data.(orders := data.orders[u := started]);
    }

    // Documents and report become durable together.
    method Finish(u: Uuid, f: Flow, closed: bool, limit: nat, attempt: nat, at: int)
      requires f.Next? || f.Broken? || f.Expired?
      requires Valid() && Concluded(data, written, u, f, closed) && !data.orders[u].command.state.DoneCommand?
      modifies this`data, this`written, this`late
      ensures Valid() && written == map[]
      ensures data == Commit(old(data), old(written), u, Report(f, old(data).orders[u], limit, attempt, at))
      ensures !f.Expired? ==> late <= old(late)
    {
      var report := Report(f, data.orders[u], limit, attempt, at);
      CommitKeeps(data, written, u, f, closed, report, late);
      data := Commit(data, written, u, report);
      late := Late(late, written, f);
      written := map[];
      assert data.docs + map[] == data.docs;
    }

    // The process dies: what was not committed is lost, and the next process knows no job.
    method Restart()
      requires Valid()
      modifies this`written, this`currentJob
      ensures Valid() && written == map[] && currentJob == None
    {
      written, currentJob := map[], None;
      assert data.docs + map[] == data.docs;
    }

    // One execution: the start is counted for good, and unless the process dies the report says done or error.
    // A done command has its document finished or, for a reason, failed; an error that was raised means that the
    // document is gone.
    method Process(u: Uuid) returns (ghost f: Flow, ghost failed: bool, ghost size: nat)
      requires Valid() && written == map[] && u in data.orders && !data.orders[u].command.state.DoneCommand?
      modifies this`data, this`written, this`currentJob, this`late
      ensures Valid() && written == map[]
      ensures !config.timeouts ==> late <= old(late) && !f.Expired?
      ensures u in data.orders
      ensures var o, p := old(data).orders[u], data.orders[u];
              && p.doc == o.doc && p.tenant == o.tenant && p.command.component == o.command.component
              && p.command.attempts == o.command.attempts + 1 && p.command.maxAttempts == o.command.maxAttempts
              && p.command.createdAt == o.command.createdAt
              && p.command.state == if f.Killed? then o.command.state else if f.Next? then DoneCommand else ErrorCommand
      ensures f.Next? ==> Answer(config, old(data).docs, data.docs, old(data).orders[u], failed, size)
      ensures f.Broken? ==> old(data).orders[u].doc !in data.docs
      ensures f.Next? || f.Broken? || f.Expired? || f.Killed?
    {
      var limit, attempt := data.orders[u].command.maxAttempts, data.orders[u].command.attempts + 1;
      var startedAt: int :| true;
      ghost var o := data.orders[u];
      StartMeans(o.command, attempt, startedAt);
      Start(u, startedAt);
      assert data.docs + map[] == data.docs;
      var flow;
      flow, failed, size := Work(u);
      f := flow;
      var closed := false;
      if flow.Expired? {
        closed := ProcessTimeout(u);
      }
      if flow.Killed? {
        Restart();
      } else {
        var finishedAt: int :| true;
        ReportOrder(f, data.orders[u], limit, attempt, finishedAt);
        ghost var view := View();
        Finish(u, flow, closed, limit, attempt, finishedAt);
        assert data.docs == view;
      }
    }

    // Any number of passes of one worker, whatever others do between and during them.
    method Serve(passes: nat)
      requires Valid() && written == map[]
      modifies this
      ensures Valid() && written == map[]
      ensures !config.timeouts ==> late <= old(late)
    {
      for i := 0 to passes
        invariant Valid() && written == map[]
        invariant !config.timeouts ==> late <= old(late)
      {
        var f := Interlude();
        var now: int :| true;
        if f.Killed? {
          Restart();
        } else if u :| u in data.orders && Selected(Commands(data.orders), {}, COMPONENT, now, u) {
          var g, failed, size := Process(u);
        }
      }
    }
  }
}
