# Verified models of the DSW engine tools

This project models, in Dafny, the behaviour of the workers and tools of the DSW engine tools monorepo that is
hardest to get right, and proves what that behaviour promises.

* **The persistent command queue** (`CommandQueries`, `CommandProtocol`, `CommandSchedules`, `CommandQueue`).
  `CommandProtocol` is a state machine: any number of workers over one command table, each with one open
  transaction whose keys are the rows it locks, a clock, and steps for selecting, committing the start, ending the
  transaction from inside the job, reporting, committing the report, and crashing. The row lock is gone while the job
  runs, so several workers may execute one command, and a late report may move `attempts` backwards. Proved over all
  runs: a command with `a0` attempts and limit `M` is started at most 2^(M-a0) - 1 times, which `CommandSchedules`
  shows to be exact; attempts respect the backoff; with one worker per component attempts never decrease, each
  attempt runs once and Done is final, while with two workers it is not. `CommandQueue` is the loop of one worker,
  and one pass of it is a run of the protocol.
* **The document job** (`DocumentJob`): the worker of documents under that queue, with the rows it has written but not
  committed, the object storage, which takes effect at once, other parties that delete documents and add commands
  between any two statements, and timeouts and crashes between any two statements.
* **The data seeder** (`SeedRecipes`, `DataSeeder`): scripts executed in the transactions of several databases that
  are committed one after another, with failures, timeouts and crashes anywhere.
* **Questionnaires** (`Questionnaire`, `ReplyVisitor`, `ItemTitles`, `ExtractedTree`, `Extraction`): linking replies
  to questions, naming list items by walking the replies and following possibly cyclic "same as" links, and the
  extractor that builds a nested result through a flat dictionary, proved equal to a recursive tree. What the walk
  names and what the tree holds is characterised by chains of questions, replies and answers. Question graphs may be
  cyclic; the walks end because every descent needs a reply at a strictly longer path.
* **The template cache** (`TemplateCache`): the incremental refresh of a template directory against a full rebuild.
* **The template development kit** (`TdkRemote`, `TdkDescriptor`, `TdkPackage`): bringing a remote draft in line with
  a local project, and packing and unpacking a project.
* **Numeral filters** (`Roman`, `Alphabet`).

Code that updates state is modelled by classes and loops, proved against functions and predicates on values; the
properties are proved about those. A nondeterministic choice (`:|`) stands for what the code does not decide: the
outcome of a call, a clock reading, the order of a set, what others do meanwhile.

## What the proofs show to be false

* Done is not final with several workers: `DoneReopened` is a schedule in which a late failure reopens the command.
  `DoneIsLost` says exactly when: some run leads out of Done if and only if a worker still executes the command or has
  an unsuccessful report of it to commit.
* A document can be finished while its command is not done: the timeout may strike after the job has ended and
  `current_job` is already cleared (worker.py:478). Then nothing marks the document as failed, and it is committed
  as finished together with the error of the command. `FinishedMeans` says this is the only way: a timeout between the
  last update of the job and the clearing of `current_job` still marks the document as failed. `LateTimeout` is an
  instance. The next attempt finds a finished document and sets it to failed.
* A seeding that times out is not rolled back: `FunctionTimedOut` derives from `BaseException`, so it passes by the
  `except Exception` of `_execute`.
  * On the default connection the queue then commits its report along with the scripts that have run. `TimedOutPass`
    says exactly when the default database changes, `TimeoutCommitsHalf` is an instance.
  * In any other database the scripts stay in the open transaction, and the next success that uses the database
    commits them too. `SuccessfulPassIsExact` says that a successful pass commits exactly the database's own scripts
    if and only if the database is not used or its transaction was empty; `TimeoutDoublesScript` is an instance in
    which a script is executed twice.
* A refresh of the template cache loses a file if an asset dropped in that refresh had the file's name
  (`CollisionLosesFile`); `CacheRefinesRebuild` says it is complete exactly otherwise, and the next refresh repairs it.
* Unpacking normalises line ends in a way that is not idempotent: a second round trip changes a text if and only if a
  CR stood in front of a CRLF (`UnixTwice`, with an instance in `UnixTwiceFails`).
* Unpacking an archive that has a file or an asset named `template.json` overwrites the descriptor it has just written,
  and only then (`ExtractedDescriptor`; `DescriptorOverwritten` is an instance). Archives packed from a loaded project
  have none (`LoadedKeepsDescriptor`).
* Updating a remote file whose PUT and DELETE both fail leaves two entries of one name if the creation then succeeds
  (`UpdateFile`; `TwoEntries` is an instance).
* Extracting replies fails if an annotated chapter has the UUID "root", which is the key of the root object, and never
  otherwise (`Extract`; `RootTaken` is an instance). `Chapter.load` takes the UUIDs of chapters from the body of the
  command without validating them; whether the server issues such a UUID is not part of this model.

## Model

| member | source | states |
|---|---|---|
| `CommandQueries.SelectionTotal` | packages/dsw-command-queue/dsw/command_queue/query.py:19-32 | whenever some unlocked row qualifies, the selection returns one |
| `CommandQueries.SelectedMeans` | packages/dsw-command-queue/dsw/command_queue/query.py:19-32 | a row may be selected if and only if it is unlocked, of the component, new or in error, below its limit and past created_at plus 2^attempts - 1 minutes, and every other such row has more attempts, or as many and no later update |
| `CommandQueries.ReportMeans` | packages/dsw-command-queue/dsw/command_queue/query.py:35-65 | what a report leaves in each column: its attempt number, done or error, and the limit lowered to that number exactly for a job error that forbids another try or came on the last attempt |
| `CommandProtocol.StepInv` | packages/dsw-command-queue/dsw/command_queue/command_queue.py:161-262 | every step of any worker keeps the invariant: disjoint locks, starts(k+1) plus [attempts = k] at most the writes of k, finishes and active executions of k at most its starts, no start above the limit, every start after its backoff |
| `CommandProtocol.RunInv` | packages/dsw-command-queue/dsw/command_queue/command_queue.py:161-262 | the invariant holds after any run from any state that has it |
| `CommandProtocol.InitInv` | packages/dsw-command-queue/dsw/command_queue/command_queue.py:86-107 | the invariant holds when no worker is busy and nothing was logged |
| `CommandProtocol.StartsOfAttempt` | packages/dsw-command-queue/dsw/command_queue/command_queue.py:189-198 | attempt a0 + j is started at most 2^(j-1) times, attempts up to a0 never |
| `CommandProtocol.StartsUpTo` | packages/dsw-command-queue/dsw/command_queue/command_queue.py:189-262 | if no start has a number above h there are at most 2^(h-a0) - 1 starts |
| `CommandProtocol.ExecutionBound` | packages/dsw-command-queue/dsw/command_queue/command_queue.py:161-262 | any workers, interleaving and crashes: at most 2^(M-a0) - 1 starts, and none if a0 > M |
| `CommandSchedules.BoundAttained` | packages/dsw-command-queue/dsw/command_queue/command_queue.py:161-262 | for every a0 <= M some schedule reaches that number of starts, so the bound is exact |
| `CommandSchedules.Exhaust` | packages/dsw-command-queue/dsw/command_queue/command_queue.py:189-262 | from attempts a, workers that stay busy and report late can start a command 2^(M-a) - 1 more times |
| `CommandSchedules.DoneIsLost` | packages/dsw-command-queue/dsw/command_queue/command_queue.py:189-262 | for any state: some run leads a command out of Done if and only if a worker still executes it or has an unsuccessful report of it to commit |
| `CommandSchedules.SafeRun` | packages/dsw-command-queue/dsw/command_queue/command_queue.py:189-262 | a Done that no worker threatens survives every run |
| `CommandSchedules.Overwrite` | packages/dsw-command-queue/dsw/command_queue/command_queue.py:189-262 | from any state in which a worker threatens a Done, the steps that overwrite it, over a crash of whoever locks the row |
| `CommandSchedules.DoneReopened` | packages/dsw-command-queue/dsw/command_queue/command_queue.py:189-262 | two workers: a schedule from the start in which a committed Done is overwritten and the command runs again |
| `CommandProtocol.StartsAfterBackoff` | packages/dsw-command-queue/dsw/command_queue/query.py:19-32 | attempt k is never started before created_at plus 2^(k-1) - 1 minutes |
| `CommandProtocol.StartRate` | packages/dsw-command-queue/dsw/command_queue/query.py:19-32 | t minutes after its creation a fresh command was started fewer than 2t + 1 times, whatever the number of workers |
| `CommandProtocol.AttemptsInTime` | packages/dsw-command-queue/dsw/command_queue/query.py:19-32 | no attempt whose backoff has not yet passed was started |
| `CommandProtocol.SoleStartRate` | packages/dsw-command-queue/dsw/command_queue/query.py:19-32 | one worker per component: n starts of a fresh command mean that more than 2^(n-1) - 1 minutes have passed |
| `CommandProtocol.SoleWorkerAttempts` | packages/dsw-command-queue/dsw/command_queue/command_queue.py:189-262 | one worker per component, crashes and transaction ends anywhere: committed attempts never decrease, every attempt number runs at most once, starts equal the increase of attempts and are at most M - a0 |
| `CommandProtocol.SettledForever` | packages/dsw-command-queue/dsw/command_queue/query.py:19-32 | a command that is not open and that nobody executes is never changed or started again |
| `CommandProtocol.DoneIsFinal` | packages/dsw-command-queue/dsw/command_queue/query.py:58-65 | one worker per component: after a committed Done the row never changes and the job never runs again |
| `CommandProtocol.StopIsFinal` | packages/dsw-command-queue/dsw/command_queue/command_queue.py:222-262 | one worker per component: any report that leaves the row closed is final once committed |
| `CommandProtocol.ClosingReport` | packages/dsw-command-queue/dsw/command_queue/command_queue.py:206-262 | a report leaves the row closed if and only if the job succeeded, failed with a job error that forbids another try or came on the last attempt, or its number has reached the limit of the row |
| `CommandQueue.Queue.FetchAndProcessQueued` | packages/dsw-command-queue/dsw/command_queue/command_queue.py:153-159 | draining terminates; afterwards nothing is eligible at the last clock reading, passes plus remaining attempts are at most the attempts left before, and passes at one clock value pick in order of attempts |
| `CommandQueue.Queue.FetchAndProcess` | packages/dsw-command-queue/dsw/command_queue/command_queue.py:161-187 | a pass takes a row that is due and first in that order, and leaves the table as described below; it finds nothing exactly when no row is due |
| `CommandQueue.Queue.Process` | packages/dsw-command-queue/dsw/command_queue/command_queue.py:189-262 | the table after the start update and the update the outcome calls for, both with the attempt number and limit read at the selection |
| `CommandQueue.PassMeans` | packages/dsw-command-queue/dsw/command_queue/command_queue.py:161-262 | the same column by column: the row a pass takes is due and comes first by fewest attempts and then latest update; it ends with one attempt more, done or error, and its limit lowered only for a final job error; no other row changes |
| `CommandQueue.PassSpends` | packages/dsw-command-queue/dsw/command_queue/query.py:19-74 | every pass strictly lowers the sum of the attempts that are left |
| `CommandQueue.PassKeepsOrder` | packages/dsw-command-queue/dsw/command_queue/query.py:19-32 | picked attempt numbers are non-decreasing among passes at one clock value |
| `CommandQueue.PassIsProtocolRun` | packages/dsw-command-queue/dsw/command_queue/command_queue.py:161-262 | an undisturbed pass of the class is a run of the multi-worker protocol with the same effect |
| `DocumentJob.DocumentWorker.GetDocument` | packages/dsw-document-worker/dsw/document_worker/worker.py:101-135 | on success the row, unless it has just been deleted, belongs to the tenant, was not finished and is held as in progress, with nothing else changed; otherwise nothing is written; an error means it was already finished, not found that the tenant has no such document |
| `DocumentJob.DocumentWorker.BuildDocument` | packages/dsw-document-worker/dsw/document_worker/worker.py:238-267 | on success the document keeps to the size limit and, with all that the tenant stores, stays below the storage limit; an error means that a step failed, the document exceeds the size limit, or it reaches the absolute value of the storage limit |
| `DocumentJob.DocumentWorker.SumFileSizes` | packages/dsw-database/dsw/database/database.py:71-77 | the sum of the sizes of the tenant's documents, as the open transaction sees them, and of its other files |
| `DocumentJob.UsedMeans` | packages/dsw-database/dsw/database/database.py:71-77 | the use of a tenant is the sum of the sizes of its documents |
| `DocumentJob.QuotaMeans` | packages/dsw-document-worker/dsw/document_worker/limits.py:19-32 | within quota means that documents and other files together stay below the absolute value of the limit |
| `DocumentJob.DocumentWorker.StoreDocument` | packages/dsw-document-worker/dsw/document_worker/worker.py:269-284 | on success the object is in the storage at once; on failure the job still holds its row, and no committed finished document is affected |
| `DocumentJob.DocumentWorker.Finalize` | packages/dsw-document-worker/dsw/document_worker/worker.py:286-307 | on success the document, if it still exists, is finished with the size of its stored object and the quota holds |
| `DocumentJob.DocumentWorker.RunSteps` | packages/dsw-document-worker/dsw/document_worker/worker.py:325-333 | all steps in order: a normal end leaves the document finished with the size of what was rendered, or gone; every other end leaves its row held or untouched; an error has a cause: a failed step, a finished document, or a rendering that is too large or has no room |
| `DocumentJob.DocumentWorker.SetFailed` | packages/dsw-document-worker/dsw/document_worker/worker.py:335-347 | a normal end leaves the document failed or gone; it raises only if the row vanished between check and update |
| `DocumentJob.DocumentWorker.CheckDocumentExists` | packages/dsw-document-worker/dsw/document_worker/worker.py:86-99 | whether the tenant has the document |
| `DocumentJob.DocumentWorker.RunJob` | packages/dsw-document-worker/dsw/document_worker/worker.py:349-367 | a missing document ends normally; every other error marks it failed, and only for such a cause, or finds it deleted; a timeout or crash passes through |
| `DocumentJob.DocumentWorker.Work` | packages/dsw-document-worker/dsw/document_worker/worker.py:464-485 | how the transaction is left for each end, with the answer of a normal end, and what the current job tells about a timeout |
| `DocumentJob.DocumentWorker.ProcessTimeout` | packages/dsw-document-worker/dsw/document_worker/worker.py:491-500 | the open transaction gains the failure of the current job's document, if one is known and exists, and nothing else |
| `DocumentJob.DocumentWorker.Start` | packages/dsw-command-queue/dsw/command_queue/command_queue.py:189-198 | the start is committed before the work and keeps all invariants |
| `DocumentJob.DocumentWorker.Finish` | packages/dsw-command-queue/dsw/command_queue/command_queue.py:181-262 | documents and report become durable in one commit, which keeps all invariants |
| `DocumentJob.DocumentWorker.Process` | packages/dsw-command-queue/dsw/command_queue/command_queue.py:189-262 | one execution: the attempt is counted for good and the report says done or error; a done command has its document finished as rendered or failed for a cause, a raised error means it is gone; all invariants hold, and without timeouts no document becomes late |
| `DocumentJob.DocumentWorker.Serve` | packages/dsw-command-queue/dsw/command_queue/command_queue.py:153-187 | any number of passes, whatever others do meanwhile: every done command is answered, finished documents have their object, finished and done agree up to late timeouts, and tenants below their limit stay below it |
| `DocumentJob.CommitKeeps` | packages/dsw-command-queue/dsw/command_queue/command_queue.py:181-262 | the closing commit of any execution keeps the consistency of commands, documents and objects, with exactly the timed-out writes becoming late |
| `DocumentJob.MovedKeeps` | packages/dsw-document-worker/dsw/document_worker/worker.py:101-135 | so does whatever others commit meanwhile, and it never makes a tenant use more |
| `DocumentJob.DoneMeans` | packages/dsw-document-worker/dsw/document_worker/worker.py:349-367 | a done command's document is finished with its object stored and of the recorded size, or failed, or absent |
| `DocumentJob.FinishedMeans` | packages/dsw-document-worker/dsw/document_worker/worker.py:464-500 | one command per document: the command of a finished document is done if and only if no late timeout committed it |
| `DocumentJob.LateTimeout` | packages/dsw-document-worker/dsw/document_worker/worker.py:476-500 | the commit after a late timeout leaves a finished document with a command in error |
| `DocumentJob.UsedUpdate` | packages/dsw-document-worker/dsw/document_worker/limits.py:19-32 | replacing a document changes the tenant's use by the difference of the sizes |
| `SeedRecipes.FromDict` | packages/dsw-data-seeder/dsw/data_seeder/seeder.py:54-77 | the ordered dictionary lists exactly the directives of the recipe, in order; none replaces another |
| `SeedRecipes.DirectivesMean` | packages/dsw-data-seeder/dsw/data_seeder/seeder.py:54-77 | the directives are exactly the files of the entries, each with the target and number of its entry: what a pattern matches, an absolute path itself, a relative one below the root, nothing for an empty path |
| `SeedRecipes.IdDetermines` | packages/dsw-data-seeder/dsw/data_seeder/seeder.py:43-45 | the identifier of a directive determines its order and, within one entry, its path |
| `DataSeeder.Seeder.RunScripts` | packages/dsw-data-seeder/dsw/data_seeder/seeder.py:420-433 | each database has in its open transaction exactly its own scripts of those that ran; unknown targets run in the default database; the used targets are those of the scripts reached |
| `DataSeeder.Seeder.Conclude` | packages/dsw-data-seeder/dsw/data_seeder/seeder.py:453-481 | commits or rolls back the default database first and then the used targets, unless interrupted |
| `DataSeeder.Seeder.Execute` | packages/dsw-data-seeder/dsw/data_seeder/seeder.py:416-484 | what each database is left with for every end: all committed, none changed, or the exact state an interruption leaves |
| `DataSeeder.Seeder.Work` | packages/dsw-data-seeder/dsw/data_seeder/seeder.py:370-387 | the same for the whole job; an unknown or unreadable recipe executes nothing, and it raises only for an unknown recipe or a failed call |
| `DataSeeder.Seeder.Process` | packages/dsw-command-queue/dsw/command_queue/command_queue.py:189-262 | one pass for the recipe the command names, or else the default one: if it succeeds the recipe is known and each database commits its part of it, filled in for the tenant; if it raises, a call has failed or the recipe is unknown, and nothing is committed; the attempt is counted, the command done exactly on success |
| `DataSeeder.Seeder.DoneMeans` | packages/dsw-data-seeder/dsw/data_seeder/seeder.py:370-387 | the recipe of every command done here, named or default, is known, and every database has executed its part of it for the tenant, consecutively |
| `DataSeeder.Seeder.Serve` | packages/dsw-command-queue/dsw/command_queue/command_queue.py:153-187 | over all runs: every command done here has seeded all its databases with the recipe it asked for, and without timeouts every database holds whole recipes only |
| `DataSeeder.FailedPassChangesNothing` | packages/dsw-data-seeder/dsw/data_seeder/seeder.py:453-476 | if any script or transfer fails, the committed state of no database changes |
| `DataSeeder.SuccessfulPassIsExact` | packages/dsw-data-seeder/dsw/data_seeder/seeder.py:477-481 | a successful pass commits to a database exactly its own scripts, in recipe order, if and only if the recipe does not use it or its transaction was empty |
| `DataSeeder.PassCommits` | packages/dsw-data-seeder/dsw/data_seeder/seeder.py:453-481 | after a successful pass the default database and those a script names have committed what was left open and their part of the plan; the others are unchanged |
| `DataSeeder.TimeoutDoublesScript` | packages/dsw-data-seeder/dsw/data_seeder/seeder.py:453-481 | an instance: a timed-out pass and then a successful one leave a script executed twice |
| `DataSeeder.LoadRecipe` | packages/dsw-data-seeder/dsw/data_seeder/seeder.py:79-83 | going through the ordered dictionary gives the directives of the recipe file in order |
| `DataSeeder.OwnInFileOrder` | packages/dsw-data-seeder/dsw/data_seeder/seeder.py:416-433 | the scripts of a loaded recipe that belong to a database are those of the file's entries for it, in the order of the file |
| `DataSeeder.OwnIsPart` | packages/dsw-data-seeder/dsw/data_seeder/seeder.py:416-433 | the part of a database: the scripts whose target it is, or, for the default one, those whose target is unknown, in recipe order |
| `DataSeeder.PassAt` | packages/dsw-data-seeder/dsw/data_seeder/seeder.py:416-484 | without a timeout, also when the process dies between two commits, each database gets what its transaction held and all of its own scripts, or nothing |
| `DataSeeder.PassSeeds` | packages/dsw-data-seeder/dsw/data_seeder/seeder.py:477-481 | after a successful pass every database contains its scripts of the plan, consecutively and in order |
| `DataSeeder.PassGrows` | packages/dsw-data-seeder/dsw/data_seeder/seeder.py:416-484 | no pass takes back what was committed |
| `DataSeeder.PassWhole` | packages/dsw-data-seeder/dsw/data_seeder/seeder.py:416-484 | without timeouts histories remain concatenations of whole recipes |
| `DataSeeder.TimedOutPass` | packages/dsw-data-seeder/dsw/data_seeder/seeder.py:453-484 | after a timeout the default database is unchanged if and only if no script of its own had run or a failure was already rolled back; otherwise it has committed exactly those that had run |
| `DataSeeder.TimeoutCommitsHalf` | packages/dsw-data-seeder/dsw/data_seeder/seeder.py:453-484 | an instance: the first of two scripts is committed, the second not |
| `Questionnaire.LastFragmentOfExtend` | packages/dsw-document-worker/dsw/document_worker/model/context.py:593-610 | the last fragment of a path built for a question is its id if and only if the id has no dot |
| `Questionnaire.ReplyIndex.AddReply` | packages/dsw-document-worker/dsw/document_worker/model/context.py:593-610 | a reply is linked to the question its path ends in, and to no other |
| `Questionnaire.ReplyIndex.ResolveLinks` | packages/dsw-document-worker/dsw/document_worker/model/context.py:1854-1858 | afterwards the index of each question is the global reply map restricted to paths ending in its id |
| `Questionnaire.SameReply` | packages/dsw-document-worker/dsw/document_worker/model/context.py:1854-1858 | extractor and visitor read the same reply at every path built for a question, if and only if its id has no dot or there is none |
| `Questionnaire.KnownMeans` | packages/dsw-document-worker/dsw/document_worker/model/context.py:784-787 | the known choices of a reply, one by one and in order |
| `Questionnaire.RoomShrinks` | packages/dsw-document-worker/dsw/document_worker/model/context.py:2216-2251 | every descent needs a reply at the current path and strictly shrinks the distance to the longest reply path |
| `ReplyVisitor.NamesTheListed` | packages/dsw-document-worker/dsw/document_worker/model/context.py:2221-2251 | the walk names an item if and only if a list reply that can be reached has it, where a chain of questions reaches a list from a chapter through items listed and answers given |
| `ReplyVisitor.PlacesAreReachable` | packages/dsw-document-worker/dsw/document_worker/model/context.py:2221-2251 | the places the walk visits are exactly those at which a reachable list reply has an item |
| `ReplyVisitor.TitleMeans` | packages/dsw-document-worker/dsw/document_worker/model/context.py:616-920 | the title of an item, kind by kind: text, caption of the answer, captions of the known choices with ", " between them, title of an integration reply, file name, empty where the answer or file is missing, "Item n" for lists, selections and no reply |
| `ReplyVisitor.LastPlaceNames` | packages/dsw-document-worker/dsw/document_worker/model/context.py:2232-2268 | for every item: of its places in the order of the walk the last one names it, after the reply to the first question below it or else "Item n", and the last one whose reply names another item links it |
| `ReplyVisitor.WalkTitles` | packages/dsw-document-worker/dsw/document_worker/model/context.py:2232-2268 | a listed item gets exactly that title, by the reply at its last place in the order of the walk |
| `ReplyVisitor.NamedAfterFirstReply` | packages/dsw-document-worker/dsw/document_worker/model/context.py:2232-2268 | so an item whose places agree has that title and exactly that link |
| `ReplyVisitor.FinalTitle` | packages/dsw-document-worker/dsw/document_worker/model/context.py:2253-2284 | after post-processing an item has the title its last place gave to the end of its links, if that end is listed, or else to itself |
| `ReplyVisitor.FinalTitleAt` | packages/dsw-document-worker/dsw/document_worker/model/context.py:2253-2284 | so its final title is that of the last place of the end of its links, or of its own, kind by kind |
| `ReplyVisitor.Visitor.Visit` | packages/dsw-document-worker/dsw/document_worker/model/context.py:2208-2284 | on any linked graph, cyclic or not, the walk ends with the titles and links characterised above, settled along the links; every listed item whose links end is called after the last place of that end, or of its own |
| `ReplyVisitor.Visitor.DoQuestions` | packages/dsw-document-worker/dsw/document_worker/model/context.py:2221-2223 | visiting questions performs exactly the assignments of the specification, in order |
| `ReplyVisitor.Visitor.DoQuestion` | packages/dsw-document-worker/dsw/document_worker/model/context.py:2225-2251 | the same for one question: items of lists, followups of the chosen answer, nothing without a matching reply |
| `ReplyVisitor.Visitor.DoItems` | packages/dsw-document-worker/dsw/document_worker/model/context.py:2232-2242 | the same for the items of a list, which are first named by their number |
| `ReplyVisitor.TitleSelections` | packages/dsw-document-worker/dsw/document_worker/model/context.py:2192-2205 | a selected item is shown with its settled title, or "Item", and no other reply changes |
| `ItemTitles.FindTarget` | packages/dsw-document-worker/dsw/document_worker/model/context.py:2270-2284 | following the links terminates on any map; the target is on the chain and lies outside the map if and only if the chain leaves it |
| `ItemTitles.PostProcess` | packages/dsw-document-worker/dsw/document_worker/model/context.py:2270-2284 | whatever the order: an item whose chain ends outside the map has the original title of that end, else its own, and every title comes from the item's chain |
| `ItemTitles.OrderIrrelevant` | packages/dsw-document-worker/dsw/document_worker/model/context.py:2270-2284 | two orders of processing agree on every item whose chain leaves the map |
| `ItemTitles.CycleNeverLeaves` | packages/dsw-document-worker/dsw/document_worker/model/context.py:2270-2284 | a chain that returns to a visited item never leaves the map |
| `ExtractedTree.SourcesAreHoisted` | packages/dsw-document-worker/dsw/document_worker/templates/extraction.py:91-106 | the keys of a node come from exactly the annotated questions that a chain of unannotated options questions, each handing up the questions of its answer, leads to |
| `ExtractedTree.ObjectKeys` | packages/dsw-document-worker/dsw/document_worker/templates/extraction.py:144-221 | the object of an answer, list item or chapter has exactly its own fields and the keys of those questions |
| `ExtractedTree.RootKeys` | packages/dsw-document-worker/dsw/document_worker/templates/extraction.py:79-89 | the root object has a key if and only if an annotated chapter has it, or a question hoisted from a chapter without one |
| `ExtractedTree.TreeExplained` | packages/dsw-document-worker/dsw/document_worker/templates/extraction.py:79-261 | every key of the root object is there once, with the value of the last chapter or question in order that gives it, and every value is explained kind by kind, field by field, down to the leaves |
| `ExtractedTree.AllExplained` | packages/dsw-document-worker/dsw/document_worker/templates/extraction.py:79-106 | the entries that questions contribute to a node are those of its sources, one to one and in order |
| `ExtractedTree.LeafValExplained` | packages/dsw-document-worker/dsw/document_worker/templates/extraction.py:108-142 | the fields of the value of each kind of question without nested questions |
| `ExtractedTree.AnnotatedMeans` | packages/dsw-document-worker/dsw/document_worker/templates/extraction.py:33-39 | an annotation is its text, or the first of several |
| `Extraction.SimpleExtractor.Extract` | packages/dsw-document-worker/dsw/document_worker/templates/extraction.py:256-261 | a lookup of the root object fails if and only if an annotated chapter has the root key as its UUID; otherwise the flat dictionary ends up holding exactly the recursive tree of the replies, explained as above |
| `Extraction.RootTaken` | packages/dsw-document-worker/dsw/document_worker/model/context.py:1496-1503 | an input for which it fails |
| `Extraction.IndexSees` | packages/dsw-document-worker/dsw/document_worker/templates/extraction.py:108-110 | the index of a question gives the reply at the path, and none if the id of the question has a dot |
| `Extraction.SimpleExtractor.VisitChapter` | packages/dsw-document-worker/dsw/document_worker/templates/extraction.py:79-89 | an annotated chapter nests its entries, another one hoists them into the root; one with the root key removes the root object, and without a root object the lookup fails |
| `Extraction.SimpleExtractor.VisitQuestions` | packages/dsw-document-worker/dsw/document_worker/templates/extraction.py:79-106 | the object of the key gains exactly the entries of the questions, which `AllExplained` describes; otherwise only objects strictly below the path change |
| `Extraction.SimpleExtractor.VisitQuestion` | packages/dsw-document-worker/dsw/document_worker/templates/extraction.py:91-106 | the same for one question of any kind |
| `Extraction.SimpleExtractor.VisitOptions` | packages/dsw-document-worker/dsw/document_worker/templates/extraction.py:144-176 | an annotated option nests the followups of the answer under their own key, another one hoists them |
| `Extraction.SimpleExtractor.VisitList` | packages/dsw-document-worker/dsw/document_worker/templates/extraction.py:204-221 | one object per item of the reply, in order |
| `Extraction.SimpleExtractor.VisitItem` | packages/dsw-document-worker/dsw/document_worker/templates/extraction.py:209-221 | the object of an item is built under a key of its own and does not touch the enclosing one |
| `Extraction.ContributedInside` | packages/dsw-document-worker/dsw/document_worker/templates/extraction.py:144-221 | a nested visit never overwrites an enclosing object, since its key strictly extends the path |
| `Extraction.RootOutside` | packages/dsw-document-worker/dsw/document_worker/templates/extraction.py:256-261 | the root key lies below no path |
| `TemplateCache.Template.PrepareFs` | packages/dsw-document-worker/dsw/document_worker/templates/templates.py:205-222 | a full rebuild stores every entry of the snapshot and nothing else |
| `TemplateCache.Template.Sync` | packages/dsw-document-worker/dsw/document_worker/templates/templates.py:224-256 | entries of the new snapshot are stored, names of dropped ones are gone, everything else is as before |
| `TemplateCache.Template.UpdateTemplate` | packages/dsw-document-worker/dsw/document_worker/templates/templates.py:258-263 | the effect of files first and assets second, name by name |
| `TemplateCache.TemplateRegistry.PrepareTemplate` | packages/dsw-document-worker/dsw/document_worker/templates/templates.py:342-364 | builds the directory of a new template, refreshes that of a known one, touches no other, and reports a missing one |
| `TemplateCache.RefreshComplete` | packages/dsw-document-worker/dsw/document_worker/templates/templates.py:230-263 | a refresh leaves nothing stale and is complete if and only if it dropped no asset under the name of a file |
| `TemplateCache.TemplateRegistry.Serve` | packages/dsw-document-worker/dsw/document_worker/templates/templates.py:342-364 | preparing a template again and again, with files disappearing in between, produces such a run of disks |
| `TemplateCache.CacheRefinesRebuild` | packages/dsw-document-worker/dsw/document_worker/templates/templates.py:187-263 | over any run of refreshes: nothing is stale, all is there if and only if that refresh had no such collision, and extra files have names of earlier snapshots |
| `TemplateCache.ConsistentAfterLoss` | packages/dsw-document-worker/dsw/document_worker/templates/templates.py:230-256 | losing files leaves nothing stale |
| `TemplateCache.NextRefreshRepairs` | packages/dsw-document-worker/dsw/document_worker/templates/templates.py:187-263 | refreshing an unchanged snapshot once more completes the cache |
| `TemplateCache.CollisionLosesFile` | packages/dsw-document-worker/dsw/document_worker/templates/templates.py:230-263 | an instance of the collision |
| `TdkRemote.Core.StoreRemote` | packages/dsw-tdk/dsw/tdk/core.py:194-244 | if no API call fails, every local file has exactly one remote entry, of its name and content, a file if it was one or is textual and an asset otherwise, which it links to; all other entries of an updated draft are untouched, a draft made anew has no others |
| `TdkRemote.Core.CleanupRemoteFiles` | packages/dsw-tdk/dsw/tdk/core.py:303-312 | if no call fails, exactly the entries under local names are gone |
| `TdkRemote.Core.StoreRemoteFiles` | packages/dsw-tdk/dsw/tdk/core.py:337-344 | if no call fails and no entry has a local name, all local files are stored once and linked |
| `TdkRemote.Core.CreateTemplateFile` | packages/dsw-tdk/dsw/tdk/core.py:314-335 | on success a new entry with the content, linked by the project; on failure no change |
| `TdkRemote.Core.UpdateTemplateFile` | packages/dsw-tdk/dsw/tdk/core.py:246-276 | the draft after each combination of successful and failed calls; the link is current if and only if the PUT or the creation succeeded, or the entry was current and not deleted |
| `TdkRemote.Core.UpdateFile` | packages/dsw-tdk/dsw/tdk/core.py:496-509 | the same for a changed file, tracked or new; all other entries and links are untouched; the name stays unique if and only if the PUT succeeded, nothing was created, the old entry was deleted or there was none |
| `TdkRemote.TwoEntries` | packages/dsw-tdk/dsw/tdk/core.py:246-276 | an update of a project in step, with failed PUT and DELETE and a successful creation, that leaves two entries |
| `TdkRemote.InStepKept` | packages/dsw-tdk/dsw/tdk/core.py:496-509 | an update whose content arrives, by PUT or by creation after the old entry is gone, keeps the whole project in step with the draft |
| `TdkRemote.UpdatesKeepStep` | packages/dsw-tdk/dsw/tdk/core.py:541-556 | so does any number of updates, as long as every content arrives |
| `TdkRemote.Core.ProcessFileChanges` | packages/dsw-tdk/dsw/tdk/core.py:541-556 | a batch of changed files is such a sequence of updates |
| `TdkRemote.StoredInStep` | packages/dsw-tdk/dsw/tdk/core.py:337-344 | after storing the project it is in step with the draft |
| `TdkRemote.Core.Post` | packages/dsw-tdk/dsw/tdk/api_client.py:326-370 | a successful POST adds an entry under a new identifier, which the answer carries |
| `TdkRemote.Core.Put` | packages/dsw-tdk/dsw/tdk/api_client.py:337-393 | a successful PUT replaces the content of the named entry of the given kind |
| `TdkRemote.Core.Delete` | packages/dsw-tdk/dsw/tdk/api_client.py:399-409 | a successful DELETE removes the named entry of the given kind, and needs an identifier |
| `TdkDescriptor.CommonLoad` | packages/dsw-tdk/dsw/tdk/model.py:204-232 | the loops load what the specification function says, with every default and error |
| `TdkDescriptor.LoadLoop` | packages/dsw-tdk/dsw/tdk/model.py:228-231 | loading element by element yields all elements or the first failure |
| `TdkDescriptor.LoadDefaults` | packages/dsw-tdk/dsw/tdk/model.py:204-232 | a loaded template field by field, with the default of each absent field |
| `TdkDescriptor.IdsMean` | packages/dsw-tdk/dsw/tdk/model.py:204-217 | identifier and version come from a composite identifier with three parts or else from their own fields; which error without them |
| `TdkDescriptor.LoadErrors` | packages/dsw-tdk/dsw/tdk/model.py:204-232 | loading fails only without identifiers, with a composite one of not three parts, or on a malformed value |
| `TdkDescriptor.ConfigDefaults` | packages/dsw-tdk/dsw/tdk/model.py:101-124 | the tool section field by field, with the default of each absent or empty field |
| `TdkDescriptor.CoordinatesSplit` | packages/dsw-tdk/dsw/tdk/model.py:193-212 | a composite identifier has two colons if and only if its parts have none, and then splits into them |
| `TdkDescriptor.FormatRoundTrip` | packages/dsw-tdk/dsw/tdk/model.py:49-98 | formats and steps with filled-in defaults are read back as written |
| `TdkDescriptor.LoadedIsNormal` | packages/dsw-tdk/dsw/tdk/model.py:204-232 | whatever is loaded has its defaults filled in |
| `TdkDescriptor.PackagedDescriptor` | packages/dsw-tdk/dsw/tdk/model.py:275-288 | a packaged descriptor is read back, all but its UUID, if no identifier part has a colon, and is rejected with that identifier otherwise |
| `TdkDescriptor.NewProjectDescriptor` | packages/dsw-tdk/dsw/tdk/model.py:312-324 | a new project descriptor is always read back, all but UUID and readme |
| `TdkDescriptor.StoredDescriptor` | packages/dsw-tdk/dsw/tdk/model.py:246-257 | a stored descriptor is read back if and only if the fields loaded before have no composite identifier that says otherwise |
| `TdkDescriptor.StoredAnew` | packages/dsw-tdk/dsw/tdk/cli.py:305-362 | the templates that are stored, from the dialogue or from the server, have no such fields, so they are read back |
| `TdkDescriptor.ConfigRoundTrip` | packages/dsw-tdk/dsw/tdk/model.py:101-129 | the tool section is read back as written |
| `TdkPackage.CreatePackage` | packages/dsw-tdk/dsw/tdk/core.py:346-385 | the archive has the packaged descriptor with all text files and all assets, each listed once, the present time twice, and the contents of all assets |
| `TdkPackage.PackFiles` | packages/dsw-tdk/dsw/tdk/core.py:351-372 | text files become items with their content, the others are listed as assets with their content type and packed |
| `TdkPackage.ExtractPackage` | packages/dsw-tdk/dsw/tdk/core.py:387-440 | the directory or the error the specification gives for any archive |
| `TdkPackage.ExistingDirectory` | packages/dsw-tdk/dsw/tdk/core.py:409-416 | an existing directory is an error exactly once the descriptor can be read, and by force it makes no difference |
| `TdkPackage.ExtractedParts` | packages/dsw-tdk/dsw/tdk/core.py:409-439 | a successful result is the new descriptor and the readme with LF line ends, the assets over them, and the texts of the items over those |
| `TdkPackage.DirectoryMeans` | packages/dsw-tdk/dsw/tdk/core.py:418-439 | name by name: the text of the last item of the name, or else the asset, or else what every new project has, or nothing |
| `TdkPackage.WriteTexts` | packages/dsw-tdk/dsw/tdk/core.py:432-439 | text files are written with LF line ends, the last of a name wins, a malformed item is an error |
| `TdkPackage.RoundTrip` | packages/dsw-tdk/dsw/tdk/core.py:346-440 | packing and unpacking restores the project if no identifier part has a colon, and fails on that identifier otherwise |
| `TdkPackage.RestoredProject` | packages/dsw-tdk/dsw/tdk/core.py:412-439 | in the restored directory the descriptor is kept if and only if no file is named template.json, the readme if none has its name, and every file is there |
| `TdkPackage.LoadFiles` | packages/dsw-tdk/dsw/tdk/model.py:386-401 | the files that the last matching pattern selects are loaded, all but the readme |
| `TdkPackage.NeverLoaded` | packages/dsw-tdk/dsw/tdk/model.py:334-335 | whatever patterns a project has, nothing at or below a path component that starts with a dot or a tilde, or is template.json or template.zip, is loaded |
| `TdkPackage.OwnPatterns` | packages/dsw-tdk/dsw/tdk/model.py:386-401 | any other path is loaded as the patterns of the project say |
| `TdkPackage.SelectedMeans` | packages/dsw-tdk/dsw/tdk/model.py:386-392 | a path is selected if and only if the last pattern that matches it does not negate |
| `TdkPackage.ComponentsMean` | packages/dsw-tdk/dsw/tdk/model.py:334-335 | the components of a path are what its slashes separate |
| `TdkPackage.LoadedKeepsDescriptor` | packages/dsw-tdk/dsw/tdk/model.py:386-401 | so packing and unpacking a loaded project keeps its descriptor |
| `TdkPackage.ExtractedDescriptor` | packages/dsw-tdk/dsw/tdk/core.py:409-439 | any archive: the directory has the new descriptor if and only if neither an asset nor a text file of the archive has its name |
| `TdkPackage.DescriptorOverwritten` | packages/dsw-tdk/dsw/tdk/core.py:409-439 | an archive for which it has not |
| `TdkPackage.RestoredDescriptor` | packages/dsw-tdk/dsw/tdk/model.py:312-324 | the restored descriptor is read as the template without UUID and readme, with the default file patterns |
| `TdkPackage.FileSurvives` | packages/dsw-tdk/dsw/tdk/core.py:432-439 | a file is unchanged if and only if it is an asset or has no CRLF |
| `TdkPackage.UnixIdentity` | packages/dsw-tdk/dsw/tdk/core.py:421-434 | replacing CRLF changes a text if and only if it has one |
| `TdkPackage.UnixFirst` | packages/dsw-tdk/dsw/tdk/core.py:421-434 | the first CRLF becomes LF, and so on with the rest |
| `TdkPackage.UnixTwice` | packages/dsw-tdk/dsw/tdk/core.py:421-434 | a second replacement of CRLF changes nothing if and only if CR CR LF does not occur |
| `TdkPackage.UnixLeavesCrlf` | packages/dsw-tdk/dsw/tdk/core.py:421-434 | the replacement leaves a CRLF if and only if there was CR CR LF |
| `TdkPackage.UnixTwiceFails` | packages/dsw-tdk/dsw/tdk/core.py:421-434 | an instance |
| `Roman.Filter` | packages/dsw-document-worker/dsw/document_worker/templates/filters.py:72-79 | the loops print the greedy numeral, and nothing for numbers below one |
| `Roman.ReadNumeral` | packages/dsw-document-worker/dsw/document_worker/templates/filters.py:72-79 | reading the numeral by the subtractive rule gives the number back |
| `Roman.NumeralInjective` | packages/dsw-document-worker/dsw/document_worker/templates/filters.py:72-79 | different numbers have different numerals |
| `Roman.UsualNumeral` | packages/dsw-document-worker/dsw/document_worker/templates/filters.py:47-48 | the numeral is the usual one: an M for each thousand, then hundreds, tens and ones, letter by letter as tables list them |
| `Roman.NumeralShape` | packages/dsw-document-worker/dsw/document_worker/templates/filters.py:47-48 | V, L and D occur at most once, I, X and C never more than three times in a row |
| `Alphabet.Filter` | packages/dsw-document-worker/dsw/document_worker/templates/filters.py:63-69 | the loop prints the spelling, and nothing for negative numbers |
| `Alphabet.Bijection` | packages/dsw-document-worker/dsw/document_worker/templates/filters.py:63-69 | naturals and non-empty lowercase words correspond one to one |
| `Alphabet.OrderIso` | packages/dsw-document-worker/dsw/document_worker/templates/filters.py:63-69 | m < n if and only if the spelling of m comes first by length and then by dictionary |
| `Alphabet.LexicographicMeans` | packages/dsw-document-worker/dsw/document_worker/templates/filters.py:63-69 | that dictionary order is decided by the first difference |

## Left out

- The connection to PostgreSQL, `LISTEN`, `select`, signals, retries, failing or aborted statements, and ties in the selection order, which are broken arbitrarily.
- Error messages of commands, worker logs and all logging, and the file name and content type of a document.
- How `func_timeout` stops a thread: a timeout is an end that may strike between any two statements of the job.
- Rendering, the object storage, HTTP, ZIP and the file system: a call succeeds or fails, and a failed API call has no effect on the draft.
- DocumentJob.DocumentWorker.RunSteps: preparing the template is a step that succeeds or fails here; the cache it uses is `TemplateCache`.
- DocumentJob.DocumentWorker.Interlude: others delete documents and add commands and empty documents, but do not change the state of a document or of a command, nor the limits or the other files of a tenant.
- DocumentJob.DocumentWorker.ProcessTimeout: a crash inside it is the same as one just before it.
- DataSeeder.Seeder.Work: the contents of recipe files do not change between attempts, and replacing placeholders in a script is represented by the tenant it is filled in for.
- DataSeeder.Seeder.Execute: the objects sent to the storage are not recorded; a commit or rollback does not fail.
- SeedRecipes.FromDict: paths are not normalised.
- Extraction.SimpleExtractor.Extract: entries are values, so sharing of one dictionary by two owners is not captured; the option to include reply objects, the merging of configurations and the interpretation of annotation texts are not part of this model.
- ReplyVisitor.Visitor.Visit: the resolution of links between questions, which does not end on a cyclic model, is taken as done; markup of texts is not interpreted.
- TemplateCache.Template.UpdateTemplate: names are unique in a snapshot, an unchanged time stamp means unchanged name and content, and downloads succeed; project files and the removal of whole templates are not part of this model.
- TdkRemote.Core.StoreRemote: names contain no percent sign, which the client would decode in the answers, contents of text files are valid UTF-8, and nobody else changes the draft; the metamodel check and updating the draft's own fields are steps that succeed or fail.
- TdkRemote.Core.ProcessFileChanges: deletions in a watched directory, the skipping of files already updated in the batch, and changes of the descriptor.
- TdkDescriptor.CommonLoad: identifiers that are not JSON strings are errors here, where the code formats them; JSON numbers are integers.
- TdkPackage.ExtractPackage: the partial directory an error leaves behind, the default directory name, and which further files the restored project loads.
- TdkPackage.CreatePackage: the check for an existing archive; text files are valid UTF-8.
- The rate limiter, sending of mail, validation patterns, the workbook builder and configuration files.
