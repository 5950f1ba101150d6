# sql-fs coherence, verified

sql-fs keeps one file tree in Postgres and serves it from many replicas, worker threads and concurrent
requests. Each session caches the whole path tree together with the epoch it belongs to; a script's
mutations are journaled under provisional inode ids and replayed in one fenced transaction when its scope
ends; reservations, a Redis readers-writer lock, an admission scheduler and a circuit breaker order the
traffic around it. This project models those mechanisms in Dafny and proves what the code says it keeps:
views are never stale, scopes are all or nothing, "retry" means "nothing was applied".

`dafny verify dfyconfig.toml` checks everything. The modules:

- The tree: `Tables` (inodes, dirents, link counts, the SQL statements), `View` (the cached paths and how
  they mirror the tables), `Commands` (planning, running and publishing each namespace operation),
  `Agreement`, `Subtrees`, `CommandLaw` (every operation publishes what its transaction stored), `Loading`
  (what a load returns), `Closure` (cached trees have no holes), `Refusals` (what the tables refuse),
  `Effects` (what each command leaves behind, and why the checks refuse it).
- The journal: `Runs`, `Renaming`, `Replay`, `Coalescing` (buffered execution refines eager execution),
  `Persistence` and `Sessions` (the objects that hold it), `Coherence` (any number of sessions, each with
  any number of operations under way, in any interleaving), `OverlapRun` and `DoomedRun` (two runs of it, step
  by step), `Freshness` (the queue of callers that wait for a load), `Contents` (cached file bytes).
- Paths and reservations: `Paths`, `Resolution`, `Reservations`, `Isolation` (plans survive), `InFlight` and
  `Flights` (operations that plan, are recorded and publish at different times), `StaleModes`, `Segments`
  (what `mkdir -p` reserves and what it creates).
- Traffic: `RedisRwLock`, `RetrySafety`, `RwLock`, `Admission`, `Outcomes` (what becomes of each request),
  `Starvation`, `EndlessBypass`, `Scheduler`, `CircuitBreaker`.
- Text: `Unicode`, `Strings`, `TextEdit`, `FileRead`.

An object whose methods update its fields is a class whose methods are proved against functions of a value
type; what the code promises is then proved about those functions, over every run.

## What turned out not to hold

Each point names its lemmas: a concrete input where one is given, and the exact condition.

- A symbolic link at "/" is refused by nothing. The cached root becomes the link, and so does the root that a
  load returns, while the stored root stays the directory it was. It is the only command after which cache
  and stored root differ (`Loading.LinkAtRoot`, `Loading.CommandLoads`, `CommandLaw.CommandAgrees`).
- `mkdir -p` reserves the highest ancestor that is missing when it is called and creates what is missing when
  its turn comes, so it can create ancestors that it did not reserve: exactly when one that was cached when
  it reserved is gone when it runs (`Segments.OutsideExactly`). Two of them can then both find the same
  ancestor missing. In a scope both record it, the flush fails at the second, and the whole script is lost
  (`Segments.TwoMkdirsLoseTheScope`, `DoomedRun.TwoMkdirsDoomTheScope`, `Coherence.TwinsDoom`); outside one the
  database refuses the second (`Coherence.ClashIsRefused`, `Coherence.WritesExactly`).
- The checks before a mutation let three commands pass that the tables refuse: a symbolic link over an entry,
  `cp -r` over one, and the removal of "/" (`Refusals.LinkOverPasses`, `Refusals.CopyOverPasses`,
  `Refusals.RemoveRootPasses`). Nothing else is refused (`Refusals.SucceedsExactly`). In a scope one such command
  alone, with nothing else under way, costs everything the script had recorded (`Refusals.ClashLosesScope`,
  `DoomedRun.LinkLosesTheScope`). A scope on an unchanged epoch, whose lease and transaction last, commits if and
  only if none of its commands clashed like this with what was recorded before (`Refusals.RunsExactly`,
  `Coherence.CommitsExactly`, `Coherence.DoomedIsHistory`); all or nothing, recovery and settled views hold all
  the same.
- Reservations keep paths apart, and a mode change reaches every name of its inode. So operations whose
  paths do not overlap can still leave a wrong mode in the cache: a hard link publishes the entry it read
  before its transaction, and a recursive copy stores the modes it planned and publishes those it reads
  afterwards (`StaleModes.LinkPublishesStaleMode`, `StaleModes.CopyPublishesOtherMode`). The cache ends up
  mirroring the tables exactly when every publication is clean: no mode of an inode it read was published
  since it planned, or, for a link, another change of that mode is still to come (`InFlight.DrainMirrors`,
  `InFlight.FaithfulUntil`, `Coherence.UncleanShows`). Everything but modes is always right
  (`Coherence.SettledViewIsItsEpoch`).
- A mode change can alter the plan of an operation on other paths: exactly when the plan carries the mode
  through another name (`Isolation.PatchReachesOtherName`, `Isolation.PlanSurvives`).
- A later segment of `mkdir -p` does not check the reservation again, so it goes into the journal of a scope
  that began after the operation reserved (`Reservations.MkdirCrossesScopes`, `Reservations.CrossesExactly`).
- `mvComposite` frees the destination before it renames, so it fails where the separate statements succeed
  when the source or the destination directory hangs under the overwritten inode
  (`Tables.MvCompositeRefinesFallback`); the checks before it exclude that.
- Dropping the last link of an inode that entries hang under unbalances the link counts
  (`Tables.DropLedgerExactly`); the checks before it exclude that too.
- `assertClosed` takes the breaker's probe ticket and drops it, which wedges the breaker in half-open for
  good (`CircuitBreaker.AssertClosedWedges`, `CircuitBreaker.WedgedExactly`).
- Admission has no bound on how often a tenant is passed over when queues are opened and waiters give up:
  for every n there is a run in which it could run at every admission and is passed over n times
  (`EndlessBypass.PassedOverWithoutBound`). With either of the two alone there is a bound
  (`Starvation.BoundedBypass`, `Starvation.BoundedWhenPatient`).
- The Redis lock keeps a reader and a writer apart only while their keys last: once a flag has lapsed, or a
  reader has expired and been reaped, both believe they hold it (`RedisRwLock.TogetherAfterLapse`,
  `RedisRwLock.TogetherOnlyAfterLoss`).
- Readers of the in-process lock are not first come, first served after a queued writer aborts
  (`RwLock.ReaderOvertaken`, `RwLock.OvertakingNeedsAbort`, `RwLock.ReaderOvertakesExactly`).
- The admission counters count a request twice when its `onQueued` callback both aborts and throws
  (`Admission.CountedTwice`, `Admission.AcquireGood`).
- An edit whose old string is half of a surrogate pair would break the size projection; this is what the
  guard in front of it is for (`TextEdit.HalfPairBreaksProjection`).
- `cp -r / /d` glues the first copied component to the last one of the destination, because the slice of
  the source path loses its separator. The model keeps this (`Commands.DestOf`); view and tables still agree.

## Model

| member | source | states |
|---|---|---|
| `Tables.RmCompositeRefinesFallback` | src/sql-fs/dialects/postgres/namespace.ts:40-80 | The one-statement removal leaves the tables that delete dirent, decrement link count and delete inode leave, cascades included, for every consistent tree and every name |
| `Tables.WriteFileCompositeRefinesFallback` | src/sql-fs/dialects/postgres/namespace.ts:82-139 | The one-statement write leaves the tables of create inode, upsert dirent and drop of the replaced inode, whatever the parent and the replaced inode are |
| `Tables.MvCompositeRefinesFallback` | src/sql-fs/dialects/postgres/namespace.ts:141-206 | The one-statement move succeeds when the separate statements do and leaves the same tables, if and only if neither the source nor the destination directory hangs under an inode whose last link it overwrites |
| `Tables.DropLedgerExactly` | src/sql-fs/dialects/postgres/namespace.ts:287-310 | Dropping a link keeps the ledger of link counts, names and references still to be made, if and only if it was not the last link of an inode that entries hang under |
| `Tables.DirectoryPathUnique` | src/sql-fs/dialects/postgres/namespace.ts:408-463 | In a consistent tree a directory is reached by one path only |
| `Agreement.AgreeReplace` | src/sql-fs/state/namespace/file-writes.ts:100-182 | Writing over an entry: the new view mirrors the new tables, hard links of the old inode included |
| `Agreement.AgreeRename` | src/sql-fs/state/namespace/links-moves.ts:91-207 | Moving a subtree in the view mirrors moving one dirent in the tables |
| `Subtrees.AgreeRmTree` | src/sql-fs/state/namespace/directory-tree.ts:166-280 | Recursive removal, deepest first, leaves tables that mirror the view without the subtree, link counts balanced |
| `Subtrees.AgreeCpTree` | src/sql-fs/state/namespace/directory-tree.ts:282-439 | Recursive copy, shallowest first, leaves tables that mirror the view with every copied entry |
| `CommandLaw.CommandAgrees` | src/sql-fs/state/coherent-view.ts:316-349 | Every command, on every consistent tree: if its transaction goes through, the published view is the tree under the stored root if and only if the command is not a symbolic link at "/" |
| `CommandLaw.LawMkdir` | src/sql-fs/state/namespace/directory-tree.ts:29-164 | Directory creation, single and segment by segment, publishes what it stored |
| `CommandLaw.LawMv` | src/sql-fs/state/namespace/links-moves.ts:91-207 | A move over nothing, a file, an empty directory or another link of itself publishes what it stored |
| `CommandLaw.LawChmodAndLink` | src/sql-fs/state/namespace/links-moves.ts:35-61 | Mode changes reach every name of the inode in view and tables alike; hard links add one name |
| `CommandLaw.LawRootLink` | src/sql-fs/state/namespace/links-moves.ts:209-263 | A symbolic link at "/" commits whenever the fence passes; it stores an entry with the empty name and caches the link as the root, which is then not the stored root |
| `Loading.LoadsIsMirrors` | src/sql-fs/dialects/postgres/namespace.ts:408-463 | Unless an entry under the root has the empty name, a load returns the tree under the stored root and nothing else |
| `Loading.RootLinkLoads` | src/sql-fs/state/coherent-view.ts:173-195 | After a symbolic link at "/" a load has the link at "/", which is what the cache has |
| `Loading.CommandLoads` | src/sql-fs/state/coherent-view.ts:173-195 | After every command, on every consistent tree, a load returns the published view; its root is the stored root if and only if the command is not a symbolic link at "/" |
| `Loading.LinkAtRoot` | src/sql-fs/state/namespace/links-moves.ts:209-263 | The concrete input: cache and load have the link at "/", the stored root is the directory it was |
| `Closure.ClosedPublish` | src/sql-fs/state/coherent-view.ts:324-349 | Every command that does not clash leaves a cache in which each path hangs under cached directories |
| `Refusals.SucceedsExactly` | src/sql-fs/dialects/postgres/namespace.ts:312-319 | Every command that has passed its checks against the tree of the tables goes through, whatever ids are handed out, if and only if the epoch it expects is the current one, or its own transaction has moved on from it, and it does not create an entry where there is one or remove the root |
| `Refusals.AdvancesByOne` | src/sql-fs/dialects/postgres/sandbox.ts:12-70 | A fenced statement moves the epoch by one, in the sandbox row and in the transaction's memory of it |
| `Refusals.RunsExactly` | src/sql-fs/state/script-persistence.ts:310-347 | For every scope and every allocation of ids: its commands all go through if and only if none of them clashes with what was recorded before it |
| `Refusals.ClashLosesScope` | src/sql-fs/state/script-persistence.ts:485-527 | Whatever a scope has recorded that would go through, one more command that clashes makes the whole scope fail |
| `Refusals.LinkOverPasses` | src/sql-fs/state/namespace/links-moves.ts:209-263 | A symbolic link over any entry but the root passes its checks, and clashes |
| `Refusals.CopyOverPasses` | src/sql-fs/state/namespace/directory-tree.ts:282-439 | So does a recursive copy of a directory over any entry but the root |
| `Refusals.RemoveRootPasses` | src/sql-fs/state/namespace/directory-tree.ts:166-280 | So does the recursive removal of the root |
| `Effects.LeavesExactly` | src/sql-fs/state/namespace/directory-tree.ts:29-439 | What every command leaves, in its own arguments: which paths appear, go or change, with what kind, mode, size, hash, link target and inode, and that nothing else differs; a copy has everything of its source with the mode it had when the copy read it, and new inodes. The view the command publishes is this, and the tables' tree is that view and no other |
| `Effects.ImageIsAppended` | src/sql-fs/state/namespace/directory-tree.ts:310-340 | Where a copied path goes: the destination's string and what follows the source's in the path's own |
| `Effects.RefusedExactly` | src/sql-fs/state/namespace/links-moves.ts:91-207 | On a view without holes every command is refused by its checks for these reasons, each with its error, and no others; and it has nothing to do exactly for a segment that is there or a move onto another name of the inode |
| `DoomedRun.LinkLosesTheScope` | src/sql-fs/state/namespace/links-moves.ts:209-263 | The concrete input: `mkdir /b` and `symlink /x /a` in one scope, with `/a` there and nothing else under way; the first alone would be stored, together nothing is |
| `Runs.RunFollows` | src/sql-fs/dialects/postgres/sandbox.ts:12-70 | Whatever a mutation does, its transaction's fence stays open, the version never falls and only ids it was given appear |
| `Runs.RunTwins` | src/sql-fs/dialects/postgres/sandbox.ts:12-70 | A run depends on the version only through the fence: the same tables at another version give the same result |
| `Renaming.PlanRenames` | src/sql-fs/state/script-persistence.ts:277-286 | Planning commutes with injective renaming of inode ids |
| `Renaming.PublishRenames` | src/sql-fs/state/coherent-view.ts:351-369 | Publishing commutes with injective renaming of inode ids |
| `Replay.ReplayIsEager` | src/sql-fs/state/script-persistence.ts:310-347 | For every scope and every id allocation, replaying the full journal goes through exactly when running each command at once would, with the same tables and version, and the renamed scope view is the eager view |
| `Replay.NoProvisionalLeft` | src/sql-fs/state/coherent-view.ts:351-369 | After the renaming no entry of the view has a provisional id |
| `Coalescing.WriteTwice` | src/sql-fs/state/script-persistence.ts:288-302 | Two writes to one name leave the tables of the second alone |
| `Coalescing.KeepsExactly` | src/sql-fs/state/script-persistence.ts:288-302 | Two file writes in a row to one directory entry leave one journal entry, the second; any other mutation adds one, and earlier entries are never touched |
| `Coalescing.OnlyLastKept` | src/sql-fs/state/script-persistence.ts:288-302 | A write that another supersedes leaves the journal as if it had never been recorded |
| `Coalescing.BufferedRefinesEager` | src/sql-fs/state/script-persistence.ts:310-347 | The same for the journal as kept, superseded entries replaced: commits exactly when eager execution would, same tables, and the renamed view mirrors them |
| `Coalescing.CoalescingPreservesMeaning` | src/sql-fs/state/script-persistence.ts:288-302 | Full and coalesced journals commit together, leave the same tables and rename the view alike |
| `Persistence.ScriptPersistence.Begin` | src/sql-fs/state/script-persistence.ts:364-377 | Opens an empty scope under a new generation; provisional ids are never handed out again |
| `Persistence.ScriptPersistence.Mutate` | src/sql-fs/state/script-persistence.ts:415-436 | Mints descending ids and records, or overflows; a lost scope records nothing |
| `Persistence.ScriptPersistence.AssertGeneration` | src/sql-fs/state/script-persistence.ts:349-355 | What a mutation captured before it began passes if and only if it is still the state of things and the scope is not lost |
| `Persistence.ScriptPersistence.RecordMutation` | src/sql-fs/state/script-persistence.ts:288-302 | Records exactly when both caps allow it, keeps the byte counter equal to the sum over kept entries; an overflow leaves the journal as it was and loses the scope |
| `Persistence.FitsExactly` | src/sql-fs/state/script-persistence.ts:288-302 | A mutation fits if and only if the journal that keeps it is within both caps |
| `Persistence.ScriptPersistence.ReplayMutations` | src/sql-fs/state/script-persistence.ts:310-347 | The replay loop computes the replay function, or nothing when the lease is lost at any point |
| `Persistence.ScriptPersistence.Finish` | src/sql-fs/state/script-persistence.ts:485-527 | The database takes all of the journal or none of it, and the journal is gone either way |
| `Persistence.ScriptPersistence.Abort` | src/sql-fs/state/script-persistence.ts:538-549 | Clears the scope and asks for a reload exactly when something had been recorded |
| `Sessions.CoherentView.PublishMutation` | src/sql-fs/state/coherent-view.ts:324-349 | Applies the changes in order; only a committed publication moves the epoch |
| `Sessions.CoherentView.PublishScope` | src/sql-fs/state/coherent-view.ts:351-369 | Renames every entry's id; moves the epoch exactly when nothing provisional is left |
| `Sessions.CoherentView.Load` | src/sql-fs/state/coherent-view.ts:173-195 | Reloads exactly when forced, poisoned, empty or at another epoch, epoch and entries together |
| `Sessions.CoherentView.PublishGeneration` | src/sql-fs/state/coherent-view.ts:316-322 | A claim moves the epoch exactly when the view was unpoisoned and at the claimed prior epoch |
| `Sessions.CoherentView.UpdateByInode` | src/sql-fs/state/coherent-view.ts:76-80 | Patches every path of the inode and no other |
| `Sessions.SqlFs.Recover` | src/sql-fs/sql-fs.ts:516-523 | A forced reload, or a poisoned view when that fails |
| `Sessions.SqlFs.EndScriptScope` | src/sql-fs/sql-fs.ts:525-550 | Database and view after every way a scope can end; whatever was recorded and did not commit leaves the view reloaded or poisoned |
| `Sessions.SqlFs.AbortScriptScope` | src/sql-fs/sql-fs.ts:552-569 | An abort reloads or poisons exactly when something had been recorded |
| `Sessions.SqlFs.ClaimGeneration` | src/sql-fs/sql-fs.ts:249-254 | Retiring a generation advances the epoch, keeps the tree, and carries the view along only if it was at the retired epoch |
| `Coherence.StepInv` | src/sql-fs/state/script-persistence.ts:185-265 | Every step of every session, with any number of operations planned, recorded and unpublished in each, segments of `mkdir -p` outside their reservation included, keeps the invariant of the whole system and only adds to history |
| `Coherence.SettledViewIsItsEpoch` | src/sql-fs/state/coherent-view.ts:173-195 | In every interleaving of sessions and of the operations within each, lost replies included, a settled unpoisoned view has exactly the paths, inodes and contents of the tree the database had at the view's epoch, and its modes too if every publication since the last load was clean; no provisional id |
| `Coherence.UncleanShows` | src/sql-fs/state/coherent-view.ts:324-349 | The first publication that is not clean leaves, once nothing is unpublished, a cache that is not what is due, and outside a scope not the tree of its epoch; but for a scope that can only fail, whose cache is reloaded or poisoned |
| `OverlapRun.LinkAndChmodOverlap` | src/sql-fs/state/namespace/links-moves.ts:265-299 | A concrete run with a hard link and a mode change under way at once, from the first load to a publication that is not clean |
| `Coherence.ExactIsHistory` | src/sql-fs/state/coherent-view.ts:324-349 | What the model remembers of cleanness is the history of publications since the last load |
| `Coherence.EmptySandboxLoads` | src/sql-fs/state/coherent-view.ts:173-195 | The empty sandbox is a start of such runs, and a session's first load settles it |
| `Coherence.SupersededNeverCommits` | src/sql-fs/state/script-persistence.ts:185-265 | No transaction checked against a superseded or retired epoch ever commits |
| `Coherence.AllOrNothing` | src/sql-fs/state/script-persistence.ts:485-549 | The end of a scope leaves all its commands in the database, as if each had run at once on the tree its view came from, or none |
| `Coherence.CommitsExactly` | src/sql-fs/state/script-persistence.ts:485-527 | The end of a scope changes the database if and only if something was recorded, the scope was not lost, no command it recorded clashed with what was recorded before, nobody committed in between, the lease lasted through the replay and nothing rolled back; the session learns of it if and only if the reply also arrives |
| `Coherence.DoomedIsHistory` | src/sql-fs/state/script-persistence.ts:415-436 | Over every run a scope is marked as clashed exactly when, since it began, one of its commands clashed when it was recorded |
| `Coherence.LostIsHistory` | src/sql-fs/state/script-persistence.ts:288-302 | Over every run a scope is lost exactly when, since it began, it was lost or a mutation of it did not fit |
| `Coherence.LogIsHistory` | src/sql-fs/state/script-persistence.ts:415-436 | The log that the laws speak of is what was recorded: empty when the scope begins, one command longer with each recording, and otherwise the same |
| `Coherence.TwinsDoom` | src/sql-fs/state/namespace/directory-tree.ts:44-103 | In every state in which two operations have planned the same segment, recording both leaves a scope that can only fail |
| `Coherence.ClashNeverCommits` | src/sql-fs/state/script-persistence.ts:310-347 | A log whose last command clashes goes through on no tree, whichever ids are handed out |
| `Coherence.DeadEnds` | src/sql-fs/state/script-persistence.ts:485-527 | Whatever a scope records after a clash and whatever becomes of its flush, the database keeps its state and a reload is asked for |
| `Coherence.ClashIsRefused` | src/sql-fs/state/namespace/directory-tree.ts:44-103 | Outside a scope a command that clashes is refused by the database and leaves nothing behind |
| `Coherence.WritesExactly` | src/sql-fs/state/script-persistence.ts:415-436 | Outside a scope an operation changes the database if and only if it still belongs to its time, nobody committed in between and it does not clash; its session will publish it if and only if the reply also arrives, and otherwise nothing of it is left |
| `Coherence.ClaimsExactly` | src/sql-fs/state/script-persistence.ts:468-483 | Retiring a generation advances the epoch and nothing else, and the session has its certificate exactly when the reply arrives |
| `Coherence.CertifiesExactly` | src/sql-fs/state/coherent-view.ts:316-322 | A certificate, whenever it takes effect, moves the epoch exactly if the view is unpoisoned and still at the retired epoch |
| `DoomedRun.TwoMkdirsDoomTheScope` | src/sql-fs/state/namespace-operations.ts:68-82 | A concrete run, from the first load to the end of the scope: with `/a` there, `rm -r /a`, then two segments whose operations reserved `/a/b` and `/a/x` both record the creation of `/a`; the lease lasts, nobody else commits, and the database is what it was, the removal included, while the session waits for a reload |
| `Coherence.PublishedIsEager` | src/sql-fs/state/coherent-view.ts:351-369 | After such a scope every command went through, and the published view is the view that running each command at once would leave, the database's tree at the database's epoch, up to modes and exactly if every publication was clean |
| `Coherence.FailedScopeRecovers` | src/sql-fs/sql-fs.ts:516-569 | A scope that recorded something and did not commit, or was aborted, ends reloaded or poisoned, and a poisoned view starts nothing |
| `Coherence.LoadsExactly` | src/sql-fs/state/coherent-view.ts:173-195 | A load settles its session at the epoch of its snapshot with that epoch's tree; one that fails settles it poisoned with what it had |
| `Freshness.AnsweredFresh` | src/sql-fs/state/coherent-view.ts:197-235 | Whoever is answered: by a snapshot begun after it asked, reloaded if anyone in its cohort forced it, at an epoch no older than the database when it asked; a failed load changes nothing |
| `Freshness.AnswersMean` | src/sql-fs/state/coherent-view.ts:206-217 | In every run a caller is resolved if and only if its load ended well and kept the view or saw a tree with rows, and is rejected otherwise; it is told of a reload if and only if the view was replaced by that snapshot, as for every forced caller that is resolved; and it has its own load's number |
| `Freshness.LoadsAreNumbered` | src/sql-fs/state/coherent-view.ts:206-217 | Loads are numbered as they begin; a load answers exactly those who queued when it began, and is forced if and only if one of them asked for it |
| `Freshness.SeesExactly` | src/sql-fs/state/coherent-view.ts:173-183 | A snapshot keeps the view if and only if nobody in the cohort insisted and the view is loaded, not poisoned and at the very epoch seen |
| `Freshness.LoadedThenFresh` | src/sql-fs/state/coherent-view.ts:197-217 | A concrete run: a forced caller is told of a reload, the next one that the view is fresh |
| `Freshness.SettledOnce` | src/sql-fs/state/coherent-view.ts:206-217 | An answer never changes, and callers waiting plus callers answered are all who ever asked |
| `Freshness.NobodyForgotten` | src/sql-fs/state/coherent-view.ts:197-217 | While anybody waits the loop is in a load or about to begin one |
| `Freshness.FreshnessQueue.Begin` | src/sql-fs/state/coherent-view.ts:206-217 | Takes everyone who waits, forced if any of them is |
| `Freshness.FreshnessQueue.Ask` | src/sql-fs/state/coherent-view.ts:197-204 | Joins the queue and starts the loop exactly when it is not running |
| `Freshness.FreshnessQueue.Check` | src/sql-fs/state/coherent-view.ts:173-195 | Keeps the view exactly when nobody forced, it is usable and its epoch is the one seen |
| `Freshness.FreshnessQueue.Finish` | src/sql-fs/state/coherent-view.ts:173-217 | Installs epoch and entries together or not at all, and gives the whole cohort one verdict |
| `Contents.HitIsRight` | src/sql-fs/state/file-contents.ts:109-127 | In every run a cache hit for any entry of the current generation yields bytes of that entry's hash |
| `Contents.FillIsCurrent` | src/sql-fs/state/file-contents.ts:37-76 | Whatever a fetch or prewarm puts in the cache has the hash of an entry that is in the view then, in the generation the fill began in |
| `Contents.FillExactly` | src/sql-fs/state/file-contents.ts:109-127 | A read that fetched its blob caches it, under its entry's inode, if and only if no view was installed since it began and the entry is still at its path or behind a link there |
| `Contents.PrewarmExactly` | src/sql-fs/state/file-contents.ts:37-76 | When a prewarm ends the cache has the content of every inode it wanted and got a blob for, and is otherwise what it was; the next one begins if and only if it was asked for |
| `Contents.PrewarmNotLost` | src/sql-fs/state/file-contents.ts:37-87 | A view installed while a prewarm runs gets its own prewarm when that one ends |
| `Contents.CommandPublishesHonestly` | src/sql-fs/state/coherent-view.ts:316-349 | Every entry a command publishes keeps an id with its content or has a newly minted id, which is what the cache relies on |
| `Contents.FileContents.FinishPrewarm` | src/sql-fs/state/file-contents.ts:37-76 | Keeps exactly the blobs accepted by generation, identity of the entry and hash |
| `Contents.FileContents.Remap` | src/sql-fs/state/file-contents.ts:97-103 | Moves every cached content from its provisional to its stored id and touches nothing else |
| `Contents.FileContents.InstallView` | src/sql-fs/state/file-contents.ts:78-87 | A new generation, an empty cache, and a prewarm started or queued |
| `Contents.FileContents.FinishRead` | src/sql-fs/state/file-contents.ts:109-127 | Caches what was fetched exactly when generation and entry are still current |
| `Paths.NormalizeFsPath` | src/sql-fs/state/paths.ts:3-13 | The loops give the rendered components of the path, for every string |
| `Paths.ComponentsRender` | src/sql-fs/state/paths.ts:3-13 | Normalizing a rendered clean path gives back its components: normal forms are fixed points |
| `Paths.ComponentsWalk` | src/sql-fs/state/paths.ts:3-13 | The path a string names is reached from the root by its names in order: empty ones and "." stay, ".." goes up if it can, any other goes down |
| `Paths.ComponentsBelow` | src/sql-fs/state/paths.ts:31-35 | Appended to a clean path, a string is walked from there |
| `Paths.ParentAndName` | src/sql-fs/state/paths.ts:23-30 | On normalized strings parent and name are the path without its last component and that component |
| `Paths.OverlapIsPrefix` | src/sql-fs/state/namespace-operations.ts:94-117 | On normalized paths the string test is exactly "same path or ancestor by components" |
| `Resolution.ResolveCached` | src/sql-fs/state/coherent-view.ts:105-142 | The restarting walk ends for every link graph and computes the resolution function |
| `Resolution.ResolvedIsReal` | src/sql-fs/state/coherent-view.ts:105-142 | A result is a cached entry that is no link, below cached directories only |
| `Resolution.ResolveIdempotent` | src/sql-fs/state/coherent-view.ts:105-142 | Resolving a result gives it back, whatever is left of the hop budget |
| `Resolution.LoopExactly` | src/sql-fs/state/coherent-view.ts:105-142 | ELOOP exactly when the budget is spent and the target still stops at a link |
| `Resolution.FoundExactly` | src/sql-fs/state/coherent-view.ts:105-142 | A path is found exactly when following at most the budget's links ends there |
| `Resolution.LinkContinues` | src/sql-fs/state/coherent-view.ts:122-136 | Stopped at a link, resolution goes on where the names of its text lead from the directory the link lies in, or from the root if the text begins with a slash, and then along the rest of the target |
| `Resolution.RelativeLink` | src/sql-fs/state/coherent-view.ts:122-136 | A text of plain names goes on below the link's directory |
| `Resolution.AbsoluteLink` | src/sql-fs/state/coherent-view.ts:122-136 | A text that begins with a slash ignores where the link lies |
| `Resolution.UpwardLink` | src/sql-fs/state/coherent-view.ts:122-136 | A text that begins with ".." goes on above the link's directory, and at the root stays there |
| `Resolution.RefusedExactly` | src/sql-fs/state/coherent-view.ts:112-122 | Below cached directories a missing component is ENOENT, and anything below what is no directory ENOTDIR |
| `Resolution.DeviceExactly` | src/sql-fs/state/coherent-view.ts:113-115 | The device is what its path names, and below it is ENOTDIR |
| `Resolution.LinkBesideFile` | src/sql-fs/state/coherent-view.ts:122-136 | A concrete input: `/d/l` with the text "f" is `/d/f` |
| `Resolution.SuffixAppends` | src/sql-fs/state/paths.ts:31-35 | What remained after a link is appended component by component |
| `Reservations.ExclusiveInOrder` | src/sql-fs/state/namespace-operations.ts:94-117 | In every run no two operations that reserved overlapping paths run at once, and they are served in arrival order; what a waiting `mkdir -p` creates outside its reservation is the matter of `Segments` and `Flights` |
| `Segments.ReservedRoot` | src/sql-fs/state/namespace-operations.ts:73-80 | The loop finds the path that the laws about reservations of `mkdir -p` speak of |
| `Segments.OutsideExactly` | src/sql-fs/state/namespace-operations.ts:68-82 | The next segment to be created lies outside the reservation if and only if an ancestor that was cached at the call is gone |
| `Segments.SegmentHeld` | src/sql-fs/state/namespace/directory-tree.ts:44-103 | Whatever the cache was at the call and is now, the next segment lies in the reservation or above it |
| `Segments.TwoMkdirsLoseTheScope` | src/sql-fs/state/namespace/directory-tree.ts:44-103 | The concrete input: roots `/a/b` and `/a/x` do not overlap, both operations create `/a`, the replay of the two creations fails at the second, and one after the other the second would find nothing to do |
| `Reservations.OldestCanMove` | src/sql-fs/state/namespace-operations.ts:94-117 | No deadlock: some live reservation runs or can start |
| `Reservations.BlockersShrink` | src/sql-fs/state/namespace-operations.ts:94-117 | What a waiter waits for never grows and shrinks with each release |
| `Reservations.JournalIsItsScope` | src/sql-fs/state/script-persistence.ts:405-436 | In every run, whatever scopes were aborted, replaced or lost while operations waited, every journal entry but later segments of `mkdir -p` came from an operation that reserved in the very scope the journal belongs to |
| `Reservations.StaleForever` | src/sql-fs/state/namespace/file-writes.ts:110-137 | Once its scope is over an operation is shut out in every continuation: no later scope has its stamp, and no mutation it had checked is journaled |
| `Reservations.ScopesAreHistory` | src/sql-fs/state/script-persistence.ts:364-413 | Over every run a scope is open between its beginning and its end, has the number of its beginning, is lost if and only if it was since it began, and begins with an empty journal |
| `Reservations.CrossesExactly` | src/sql-fs/state/namespace/directory-tree.ts:44-103 | A mutation enters the journal of a scope its operation did not reserve in if and only if it is a later segment of `mkdir -p` and the scope changed since |
| `Reservations.MkdirCrossesScopes` | src/sql-fs/state/namespace/directory-tree.ts:44-103 | The concrete run |
| `Reservations.NamespaceOperations.AssertReservation` | src/sql-fs/state/script-persistence.ts:409-413 | Passes if and only if the stamp is the current one and the scope is not lost |
| `Reservations.NamespaceOperations.Mutation` | src/sql-fs/state/script-persistence.ts:415-436 | Journals in a scope, passes outside one, or is refused and releases, as the step function says |
| `Reservations.NamespaceOperations.Reserve` | src/sql-fs/state/namespace-operations.ts:94-117 | Waits for exactly the live overlapping reservations |
| `Reservations.NamespaceOperations.Begin` | src/sql-fs/state/namespace-operations.ts:94-117 | Runs, or gives up its reservation when the scope has moved on or is lost |
| `Isolation.PlanSurvives` | src/sql-fs/state/namespace-operations.ts:94-117 | While a non-overlapping operation commits, a plan made before stays the plan, if and only if that operation is not a mode change whose mode the plan carries through another name |
| `Isolation.PatchAndPlan` | src/sql-fs/state/coherent-view.ts:76-80 | A mode change alters exactly the plans that carry a mode it changes |
| `Isolation.PatchReachesOtherName` | src/sql-fs/state/coherent-view.ts:76-80 | The concrete failing input |
| `InFlight.RecordOther` | src/sql-fs/state/script-persistence.ts:415-436 | Recording an operation planned earlier, with others on other paths planned, recorded and published since, changes what is due as if it were planned and published now |
| `InFlight.LandKeeps` | src/sql-fs/state/coherent-view.ts:324-349 | Every publication, in any order, keeps the cache on the way to what is due: up to modes always, exactly if it is clean |
| `InFlight.PlansFaithfully` | src/sql-fs/state/namespace/links-moves.ts:273-281 | An operation starts out with what the cache holds |
| `InFlight.DrainMirrors` | src/sql-fs/state/namespace/links-moves.ts:277-298 | After all publications, in any order, the cache mirrors the tables if and only if every publication was clean |
| `InFlight.FaithfulUntil` | src/sql-fs/state/namespace/directory-tree.ts:310-388 | What a hard link or a recursive copy read stays true until exactly the publication of another mode of an inode it read |
| `StaleModes.LinkPublishesStaleMode` | src/sql-fs/state/namespace/links-moves.ts:265-299 | The concrete failing input for a hard link |
| `StaleModes.CopyPublishesOtherMode` | src/sql-fs/state/namespace/directory-tree.ts:300-388 | The concrete failing input for a recursive copy |
| `Flights.ApartOrTwins` | src/sql-fs/state/namespace-operations.ts:94-117 | Two operations whose reservations do not overlap touch paths that do not overlap, unless both create the same missing ancestor above what either reserved |
| `Flights.NewLive` | src/sql-fs/state/namespace-operations.ts:94-117 | An operation that plans while others are under way has a plan that stands, or finds its segment recorded by another |
| `Flights.ClashIsOutside` | src/sql-fs/state/namespace/directory-tree.ts:44-103 | Whatever is under way, a segment that is about to clash lies above what its operation reserved |
| `Flights.TakenOffOk` | src/sql-fs/state/namespace-operations.ts:94-117 | Recording one of several planned operations that does not clash leaves every other plan standing and apart from it, or a segment that another has just recorded |
| `Flights.ArrivedOk` | src/sql-fs/state/coherent-view.ts:324-349 | Publishing one of several recorded operations leaves every other plan as it was |
| `RedisRwLock.Server.Execute` | src/api/distributed-rw-lock.ts:44-101 | The seven scripts, each as one atomic step on writer flag and reader set |
| `RedisRwLock.WriterExcludesReaders` | src/api/distributed-rw-lock.ts:324-360 | In every run, under any clocks and lost replies: while a writer that finished draining owns the flag there is no reader |
| `RedisRwLock.TogetherOnlyAfterLoss` | src/api/distributed-rw-lock.ts:324-570 | In every run a client that was told it reads and one that was told it is inside coexist only if the reader's key expired and was reaped, or the writer's flag lapsed, since it was granted |
| `RedisRwLock.KeysAreLost` | src/api/distributed-rw-lock.ts:324-570 | In every run a client past its acquire whose key is not there had it and lost it in one of these two ways |
| `RedisRwLock.SharedGrantedExactly` | src/api/distributed-rw-lock.ts:44-48 | An answered shared acquire lets its client read if and only if nobody held the flag, with its token in the reader set until its expiry; expired readers go and all others stay |
| `RedisRwLock.FlagGrantedExactly` | src/api/distributed-rw-lock.ts:73-74 | An answered flag acquire starts its client draining if and only if the flag was free, and then the client holds it |
| `RedisRwLock.DrainedExactly` | src/api/distributed-rw-lock.ts:76-85 | A drain check lets the writer in if and only if the flag is still its own and every reader has expired |
| `RedisRwLock.RenewedExactly` | src/api/distributed-rw-lock.ts:57-95 | A renewal is answered 1 if and only if the key is still held, and moves that reader's expiry only |
| `RedisRwLock.ReleasedExactly` | src/api/distributed-rw-lock.ts:50-101 | After a release that was applied the caller's key is gone and no other has changed |
| `RedisRwLock.FateOfCalls` | src/api/distributed-rw-lock.ts:44-101 | What a call does to the keys does not depend on whether its answer arrives, and one that never arrives does nothing |
| `RedisRwLock.ReaderWaitsForWriter` | src/api/distributed-rw-lock.ts:44-101 | A concrete run: a reader is refused while a writer is inside and reads after its release |
| `RedisRwLock.TogetherAfterLapse` | src/api/distributed-rw-lock.ts:44-101 | A concrete run in which a lapsed flag lets a reader in beside the writer |
| `RedisRwLock.NeverRevived` | src/api/distributed-rw-lock.ts:44-101 | A reaped reader or lapsed flag stays lost in every continuation |
| `RedisRwLock.NobodyElses` | src/api/distributed-rw-lock.ts:44-101 | A late call never removes a successor's flag, nor a reader that has not expired by the caller's clock |
| `RedisRwLock.HeartbeatZeroIsFinal` | src/api/distributed-rw-lock.ts:513-570 | A heartbeat answered 0 means the lock is lost then and ever after |
| `RetrySafety.AmbiguousIsNotRetryable` | src/api/errors.ts:78-151 | No code says both "may have been applied" and "retry" |
| `RetrySafety.CodesExactly` | src/api/errors.ts:78-151 | Which codes admit effects and which say "retry", one by one |
| `RetrySafety.MayApplyExactly` | src/api/worker-owner/request-outcome.ts:10-21 | Which commands may leave something behind, one by one |
| `RetrySafety.FlagsAreHistory` | src/api/worker-owner/request-outcome.ts:10-57 | The flags say exactly what was dispatched, over every history of replies, deaths and refusals |
| `RetrySafety.WritesAreHistory` | src/api/worker-owner/request-outcome.ts:23-29 | A scope counts as open exactly between the acknowledgements of its opening and its end, and a write as committed exactly when one that may apply, and is no script, was acknowledged outside a scope |
| `RetrySafety.AppliedNeverRetryable` | src/api/worker-owner/request-outcome.ts:37-40 | After a dispatched script, a created sandbox or an acknowledged write, a lease loss never surfaces a retryable code |
| `RetrySafety.UnavailableMeansNothingDispatched` | src/api/worker-owner/pool.ts:470-516 | A transport EWORKER_UNAVAILABLE surfaces only if no command that may apply was ever dispatched |
| `RetrySafety.SendThrowsExactly` | src/api/worker-owner/pool.ts:470-516 | What the last send of every history throws, for every way it can go |
| `RetrySafety.SurfacedExactly` | src/api/worker-owner/request-outcome.ts:31-57 | What the client is told, over every history, result, abort and loss: the result itself unless the lease was lost, then an outcome unknown if something may have been applied, and otherwise that the lock was lost |
| `RetrySafety.DispatchedExecNeverRetryable` | src/api/worker-owner/pool.ts:518-546 | Once an exec was dispatched, no history of deaths, error replies and lease losses surfaces ELOCKLOST or ERUNTIME_BUSY, and after a lease loss nothing retryable |
| `RetrySafety.LostInTheGap` | src/api/distributed-rw-lock.ts:539-559 | Why the lease's and the lock's verdicts must fall in one turn: exactly when a later loss would turn an error the lease passed on into ELOCKLOST |
| `RetrySafety.OwnerThread.Fail` | src/api/worker-owner/pool.ts:310-320 | A dying worker settles every pending request once, retryable exactly if it may not have applied |
| `RetrySafety.OwnerThread.Request` | src/api/worker-owner/pool.ts:245-294 | A dead worker takes nothing; otherwise one pending request more, marked by whether it may apply |
| `RetrySafety.RequestOutcome.OnDispatched` | src/api/worker-owner/request-outcome.ts:17-21 | The flag step whose meaning over every history `RetrySafety.FlagsAreHistory` gives |
| `RetrySafety.RequestOutcome.OnAcknowledged` | src/api/worker-owner/request-outcome.ts:23-29 | The flag step whose meaning over every history of replies `RetrySafety.WritesAreHistory` gives |
| `RwLock.ReachableInv` | src/api/rw-lock.ts:75-184 | In every reachable state: no writer with readers, a queue only while the lock is held, the queue in order and free of settled waiters |
| `RwLock.HoldersAreHistory` | src/api/rw-lock.ts:75-184 | Over every run, from requests and releases alone: as many readers hold the lock as shared tickets were granted and not released, a writer if and only if exclusive tickets granted exceed the releases, and then by one, never both; every ticket handed out is exactly one of queued, granted and aborted |
| `RwLock.SettledForGood` | src/api/rw-lock.ts:94-129 | A grant stays a grant, and a waiter is aborted only by its own abort while it is queued |
| `RwLock.NobodyOvertakesWriter` | src/api/rw-lock.ts:75-184 | The waiters ahead of a queued writer never grow, and whoever is granted stood ahead of it |
| `RwLock.ReaderOvertakesExactly` | src/api/rw-lock.ts:75-92 | A newcomer passes a queued reader exactly when readers hold the lock and no writer is queued |
| `RwLock.OvertakingNeedsAbort` | src/api/rw-lock.ts:75-184 | In every run a newcomer passes a queued reader only if a writer at the head of the queue has given up while readers held the lock |
| `RwLock.ReaderOvertaken` | src/api/rw-lock.ts:94-129 | The concrete run in which it does |
| `RwLock.RWLock.AcquireLock` | src/api/rw-lock.ts:75-129 | Grants at once exactly when free for that mode, else joins the queue |
| `RwLock.RWLock.DispatchQueue` | src/api/rw-lock.ts:147-176 | Wakes one writer or every leading reader |
| `RwLock.RWLock.AbortWaiter` | src/api/rw-lock.ts:94-129 | Takes the waiter out of the queue and disturbs nobody else |
| `RwLock.RWLock.ReleaseShared` | src/api/rw-lock.ts:131-137 | The last reader out dispatches the queue |
| `RwLock.RWLock.ReleaseExclusive` | src/api/rw-lock.ts:139-145 | A writer out dispatches the queue |
| `Admission.ReachableGood` | src/api/worker-owner/admission.ts:68-209 | In every reachable state the ledgers balance, every cap holds, an exclusive key has one holder, and no waiter could run unless behind a queued writer of its key |
| `Admission.AcquireGood` | src/api/worker-owner/admission.ts:68-141 | A request keeps all of this, and is counted twice exactly when it is queued and its callback both aborts and throws |
| `Outcomes.TurnedAwayExactly` | src/api/worker-owner/admission.ts:68-100 | A request is cancelled when the scheduler is closed or its caller gave up; else let in at once if and only if there is a place and none of its tenant's requests for that key waits; else refused if and only if one of the four caps would be exceeded; each with its own counter and nothing else changed |
| `Outcomes.QueuedExactly` | src/api/worker-owner/admission.ts:101-141 | Any other request joins the end of its tenant's queue, a tenant without one the end of the rotation, and nothing else changes |
| `Outcomes.WithdrawnExactly` | src/api/worker-owner/admission.ts:101-141 | A request whose callback takes it away again leaves only its count: once, or twice when the callback both aborts and throws |
| `Outcomes.LeavesExactly` | src/api/worker-owner/admission.ts:111-125 | A timeout counts as refused, an abort as cancelled, of a request that waits and of no other; its waiter is gone, everybody else waits on or is let in |
| `Outcomes.ReleasedExactly` | src/api/worker-owner/admission.ts:169-196 | A release is counted once, gives back its own grant and no other, and lets in as many as fit |
| `Outcomes.ClosedExactly` | src/api/worker-owner/admission.ts:143-152 | Closing cancels every waiter and takes nothing from those let in |
| `Outcomes.WakesNobody` | src/api/worker-owner/admission.ts:154-156 | A wake-up finds nobody to let in: whoever could run has been let in already |
| `Outcomes.FirstOfItsKey` | src/api/worker-owner/admission.ts:211-237 | The scan never takes a waiter behind another one of the same tenant for the same key |
| `Outcomes.DrainLetsIn` | src/api/worker-owner/admission.ts:211-237 | A scan lets waiters in as what they asked for, takes nothing from anybody, and counts each once |
| `Admission.CountedTwice` | src/api/worker-owner/admission.ts:132-139 | The concrete run that counts a request twice |
| `Admission.ReleaseOnce` | src/api/worker-owner/admission.ts:169-196 | Releasing twice changes nothing the second time |
| `Admission.PassedOverRankDrops` | src/api/worker-owner/admission.ts:211-237 | Each admission of another tenant lowers a runnable tenant's rank: number of queues, then distance from the last one served |
| `Starvation.BoundedBypass` | src/api/worker-owner/admission.ts:211-237 | In every run whose events open no new queue, a tenant that could run at every admission is passed over fewer than n * n + n times for n queues |
| `Starvation.BoundedWhenPatient` | src/api/worker-owner/admission.ts:211-237 | In every run in which no waiter leaves its queue unserved, however many queues are opened, such a tenant is passed over fewer than m * (m + 1) * (m + 2) times for room for m waiters |
| `EndlessBypass.PassedOverWithoutBound` | src/api/worker-owner/admission.ts:211-237 | For every n, a run from a state the scheduler reaches in which the tenant waits throughout, could run whenever anybody was admitted, and is passed over at least n times |
| `Starvation.NextLeads` | src/api/worker-owner/admission.ts:68-237 | Every event that opens no queue consists of admissions by the scan and of changes that leave the rotation alone; every event by which no waiter leaves consists of admissions and of queues staying or being opened at the end |
| `Scheduler.FairAdmission.AcquireSlot` | src/api/worker-owner/admission.ts:68-141 | Drain, immediate admission, refusal or queueing, as the value function says, ledgers kept |
| `Scheduler.FairAdmission.DrainQueues` | src/api/worker-owner/admission.ts:211-237 | The rotating scan admits until no waiter can run |
| `Scheduler.FairAdmission.ReleaseSlot` | src/api/worker-owner/admission.ts:169-196 | Gives back tenant and key use once and drains |
| `Scheduler.FairAdmission.CloseAll` | src/api/worker-owner/admission.ts:143-152 | Cancels every waiter and closes |
| `Scheduler.FairAdmission.TryReserve` | src/api/worker-owner/admission.ts:169-196 | Reserves exactly when capacity, tenant and key allow it |
| `Scheduler.FairAdmission.RemoveWaiter` | src/api/worker-owner/admission.ts:198-209 | Takes one waiter out, its bytes off the sums, an emptied tenant out of the rotation |
| `Scheduler.FairAdmission.JoinQueue` | src/api/worker-owner/admission.ts:101-141 | Queues the request and survives every way its callback can behave |
| `Scheduler.FairAdmission.TimeOutWaiter` | src/api/worker-owner/admission.ts:114-120 | A timeout removes, counts as refused and drains |
| `CircuitBreaker.OneProbe` | src/redis/circuit-breaker.ts:130-147 | At most one probe is in flight, and only while half-open |
| `CircuitBreaker.SentExactly` | src/redis/circuit-breaker.ts:130-147 | In every run a command goes out if and only if the breaker is closed or its cool-down is over; then it is the probe and has a new ticket if its caller holds one |
| `CircuitBreaker.LeavesHalfOpenByProbe` | src/redis/circuit-breaker.ts:163-202 | The breaker leaves half-open exactly when the current probe settles |
| `CircuitBreaker.StragglersIgnored` | src/redis/circuit-breaker.ts:163-202 | A straggler neither closes it nor restarts its cool-down |
| `CircuitBreaker.OpensExactly` | src/redis/circuit-breaker.ts:163-237 | A closed breaker opens exactly at the failure that makes the run of failures as long as the threshold |
| `CircuitBreaker.NeverWedged` | src/redis/circuit-breaker.ts:130-237 | With callers that keep their tickets half-open always has its probe outstanding, and open admits the next probe exactly after the cool-down |
| `CircuitBreaker.WedgedExactly` | src/redis/circuit-breaker.ts:130-237 | A half-open breaker can change again exactly when its probe's ticket is still held |
| `CircuitBreaker.AssertClosedWedges` | src/redis/circuit-breaker.ts:149-152 | The concrete run that wedges it |
| `CircuitBreaker.RedisCircuitBreaker.Acquire` | src/redis/circuit-breaker.ts:130-147 | Admits or refuses and mints the probe ticket as the value function says |
| `CircuitBreaker.RedisCircuitBreaker.Failed` | src/redis/circuit-breaker.ts:163-202 | Counts, reopens or ignores a failure as the value function says |
| `CircuitBreaker.RedisCircuitBreaker.Succeeded` | src/redis/circuit-breaker.ts:163-175 | Closes on the current probe or while closed, ignores stragglers |
| `CircuitBreaker.CountsConsecutive` | src/redis/circuit-breaker.ts:163-202 | While closed the counter is the run of failures since the last success |
| `Unicode.EncodeDecode` | src/api/lib/file-ops.ts:128-138 | Every byte string that decodes is given back by encoding its text, and that text has no lone surrogate |
| `Unicode.DecodeEncode` | src/api/lib/file-ops.ts:152-160 | Every text without lone surrogates is given back by decoding its bytes |
| `TextEdit.HasLoneSurrogate` | src/api/lib/file-ops.ts:54-66 | True exactly when some surrogate lacks its pair |
| `TextEdit.CountOccurrences` | src/api/lib/file-ops.ts:72-80 | One less than the pieces that splitting at the needle gives |
| `Strings.LeftmostIsMost` | src/api/lib/file-ops.ts:71-80 | No choice of non-overlapping occurrences has more members than are counted |
| `Strings.PiecesFree` | src/api/lib/file-ops.ts:85-110 | No piece between two replacements still contains the needle |
| `TextEdit.ReplaceOccurrences` | src/api/lib/file-ops.ts:93-110 | The flushed buffer yields the pieces joined by the replacement: all of them, or the first cut only |
| `TextEdit.MatchKeepsPairs` | src/api/lib/file-ops.ts:48-53 | A match of a needle without lone surrogates never starts or ends inside a pair |
| `TextEdit.ReplacementIsExact` | src/api/lib/file-ops.ts:146-157 | Replacing swaps the matched bytes and no others, the result decodes, and its size is original size plus replacements times delta |
| `TextEdit.HalfPairBreaksProjection` | src/api/lib/file-ops.ts:48-53 | The input that would break the projection without the guard |
| `TextEdit.ApplyEdit` | src/api/lib/file-ops.ts:112-168 | Outcome and file for every input, as a specification without projection, loops or buffer says; the file and its mode change only on success |
| `FileRead.CountLines` | src/api/mcp/tools.ts:64-73 | The number of lines that splitting gives, none for an empty text |
| `FileRead.LineStartOffset` | src/api/mcp/tools.ts:76-85 | Where a line starts, or the end of the text |
| `FileRead.SelectionIsSlice` | src/api/mcp/tools.ts:221-232 | For every text, offset and limit the slice is split, slice and join on newline |
| `FileRead.SelectLines` | src/api/mcp/tools.ts:221-233 | The selected lines, and that they start and end between code points |
| `FileRead.SelectedBytes` | src/api/mcp/tools.ts:232-242 | The selected bytes are the file's own at the reported offset |
| `FileRead.SnapToCodepointStart` | src/api/mcp/tools.ts:92-96 | The last place at or before the clamped offset where a code point starts |
| `FileRead.CutPage` | src/api/mcp/tools.ts:238-284 | The shrink loop ends whatever replies measure; a page fits the budget, ends on a code point boundary and is not empty when truncated; with a ratio rounded off by at most one it is refused only when the budget is less than 35 bytes over an empty reply |
| `FileRead.PagingIsLossless` | src/api/mcp/tools.ts:244-284 | Following nextByteOffset gives exactly the selected bytes and text, in at most one page more than there are bytes |
| `FileRead.ResumeWithoutLines` | src/api/mcp/tools.ts:234-242 | A resume that drops the line range begins at the same byte of the file |
| `FileRead.ReadFile` | src/api/mcp/tools.ts:198-284 | The outcome for every file and request, and what a reply carries |

## Left out

- Modification times and `utimes`: the view and the database stamp them from different clocks.
- `appendFile`, which takes the write path that is modelled, and `bulkIngest`, which reserves and creates missing
  ancestors as `mkdir -p` does.
- Symbolic links at "/" in the runs of `Coherence` and `Flights`: no operation under way links the root. `Loading` and
  `CommandLaw` say what such a link does.
- What the cache of a scope holds after two commands have clashed: anything, until it is reloaded or poisoned.
- Policy checks and `/dev/null` dispatch outside path resolution. A blob upload is a wait between plan and record.
- The script transaction that stays open for a whole scope, the alternative to the buffered journal.
- Loads while operations of the same request are under way, and the end of a scope between the recording and
  the publication of an operation: the session manager awaits freshness first, and only microtasks lie
  between recording and publication. Mode changes publish in the order they were recorded, for the same reason.
- What operations do between the moment `finish` closes a scope and the end of its flush: the code lets them plan
  against the scope's view then. Here a scope ends in one step, and nothing plans until its ids are published.
- A session retires a generation only between its own commits and scopes; the certificate it gets for that may take
  effect at any later time.
- Row limits and driver faults inside a transaction: a transaction is atomic, its commit reply may be lost.
- Sorting in `rm -r` and `cp -r`: a command carries its enumeration, any order with the required depth order.
- LRU eviction of cached contents: an entry may be forgotten at any time.
- SHA-256: an arbitrary function from bytes to digests; blobs are stored under their hash.
- The external `tryReserve` hook, wait histograms and timers of `FairAdmission`; timeouts are events.
- Redis key lifetimes and client clocks: a flag may lapse at any time and every call may carry any time.
- Worker start-up, memory pressure, session reaping and shutdown.
- HTTP routes, MCP transport, the JSON form of replies: `FileRead.CutPage` takes the size of a reply as an
  arbitrary function, and the bound of seven bytes for one content byte as a hypothesis of its last clause.
- FileRead.CutPage: the refusal is one way. That a page is refused says the budget is short of 35 bytes over
  an empty reply; a shorter budget may still do for a page, depending on what the ratio jumps to.
- TextEdit.ApplyEdit: requires a non-empty old string. Both callers refuse an empty one before `applyEdit`, whose
  counting loop would not end on it.
- RetrySafety.AppliedNeverRetryable: requires what the next line says.
- RetrySafety.DispatchedExecNeverRetryable: requires that between a throw the lease passes straight on and
  the lock's handler no heartbeat runs; `RetrySafety.LostInTheGap` says exactly what happens otherwise.
