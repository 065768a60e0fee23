# Verification of the database tier and the transaction machinery

This project models the parts of Shekel where correctness rests on PostgreSQL triggers, on
what a transaction is, and on who may stop what, and proves their properties over every
input, every run and every interleaving.  `dafny verify dfyconfig.toml` checks all of it.

Most modules have the same shape.  A pure `Step` or `Execute` function says what one
statement, trigger, hook or signal does to the state; an invariant is shown inductive
(`StepKeeps`, `RunKeeps`); the main theorem follows for every run.  Beside it stands the
other direction: an exactness lemma (what is refused is refused exactly when it must be), or
a run that breaks the property once a guard is taken away.  Code that changes state in place
is a class whose methods are proved equal to the same functions.

| module | source | subject |
|---|---|---|
| DeletedRows | app/deleted_row_infrastructure.py | no money under a hidden row, for every interleaving |
| Journal | app/posting_infrastructure.py | every entry and the whole ledger sum to zero |
| AppendOnly | app/append_only_infrastructure.py | what a committed history row may be lost to |
| Levels | app/level_infrastructure.py | a bank level's day lies within its file |
| Sightings | app/sighting_infrastructure.py | a line goes with its last sighting, in any order |
| Audit, AuditCensus | app/audit_infrastructure.py | replay and undo of the audit log; the trigger census |
| OwnerLock | app/db_transaction.py | one owner's commands are serial in lock order |
| Requests | app/db_transaction.py | modes, actors, locks and snapshots of one request |
| Deploy | scripts/init_database.py, app/migration_runner.py | the deploy saves all or nothing |
| Calendar, Recurrence | migrations/_recurrence_two_axis_backfill.py | the backfill's date arithmetic |
| Cluster | scripts/private_cluster.py | what a start or a stop of a cluster leaves behind |
| MigrationHead | scripts/build_test_db_image.py | one head stands for the whole chain |

## Where the code and its own words differ

The models follow the code.

- `budget.level_lies_within_file` is documented to answer NULL for a NULL stated day
  (app/level_infrastructure.py:54-56).  Under three-valued AND it answers FALSE when the day
  is outside the declared window, so the arm refuses there
  (`Levels.TheRuleRefusesOnlyADefiniteNo`).  The claim's key refuses either way.
- Deleting an account and putting its id back in one transaction is said to be refused
  because the account stands at commit (app/append_only_infrastructure.py:252-258).  It is
  refused exactly when the account has history with no second owner; an account whose history
  is bank levels and their releases passes, because each row's second owner is gone
  (`AppendOnly.DeleteAndRecreateIsRefused`; `AppendOnly.ABankOnlyAccountIsNotProtected` is a
  database where it passes).  Such an account also has no opening, and creating an account
  always writes one (app/services/account_service.py:340-345,
  app/services/cash_ledger/_events.py:527-533), so only a raw INSERT of the account makes it.
- The UPDATE arm's one admitted transition cannot be reached by a written UPDATE: while the
  keys hold, no release names a missing import (`AppendOnly.NoWrittenUpdatePasses`).
- The sighting rule is said to make a line un-strandable by any writer
  (app/sighting_infrastructure.py:10-20).  The trigger hangs on DELETE, so an UPDATE that
  re-points a line's last sighting strands the line, and so does a TRUNCATE
  (`Sightings.StatementKeepsExactlyWhenHarmless`).
- Held signals are said never to be lost (scripts/private_cluster.py:287-288).  At the
  handing over only the first one recorded after the last look is raised again
  (`Cluster.Machine.Start`).
- `migration_head` returns a head on inputs where it does not stand for the whole chain.  Call
  a nonempty set of revisions shut off when the head is not in it and no member is named as a
  parent by a self-declaring file outside it.  The head stands for every revision if and only if
  no set is shut off (`MigrationHead.EveryRevisionIsAnAncestorUnlessShutOff`); on acyclic edges,
  if and only if every other revision is named by a file that declares itself
  (`MigrationHead.EveryRevisionIsAnAncestorExactlyWhen`).  So a cycle with a way out does no
  harm, nor does an undeclared file beside a declared one that names the same parent.
  With single parents the walk down from the head exists, ends and holds every revision if and
  only if the edges are acyclic and every other revision is so named
  (`MigrationHead.TheHeadsChainHoldsEveryRevision`).  `MigrationHead.ACycleIsMissed` and
  `MigrationHead.AnUndeclaredFileHidesAHead` are inputs with a head that misses a revision.

## Model

| member | source | states |
|---|---|---|
| DeletedRows.NoMoneyUnderADeletedRow | app/deleted_row_infrastructure.py:170-240 | for every interleaving of READ COMMITTED transactions, no committed state holds a movement under a hidden row with no transfer, or under no row, if the start holds none |
| DeletedRows.PublishLeavesOthersSound | app/deleted_row_infrastructure.py:181-185 | a commit cannot leave anything forbidden in what another open transaction would publish, unless that transaction has a check queued for it; this is where the arrival lock is used |
| DeletedRows.RunKeeps | app/deleted_row_infrastructure.py:170-222 | the invariant tying writes to locks held and checks queued survives any run |
| DeletedRows.CommitIsExact | app/deleted_row_infrastructure.py:199-222 | a save commits exactly when what it would store is clean, so a row hidden and restored, or re-parented, in one transaction passes |
| DeletedRows.CommitNowIsAllOrNothing | app/deleted_row_infrastructure.py:199-222 | a save publishes its whole view, or fails when a queued row is left hidden with no transfer and a movement under it |
| DeletedRows.CommitNowKeeps | app/deleted_row_infrastructure.py:199-240 | draining the deferred checks and publishing at once keeps the invariant |
| DeletedRows.WithoutTheLockARaceHidesMoney | app/deleted_row_infrastructure.py:165-185 | with the row lock left out there is a run of two transactions that commits money under a hidden row |
| DeletedRows.AnInsertIsRefusedExactlyWhen | app/deleted_row_infrastructure.py:171-193 | a running transaction that inserts a movement is failed exactly when the id is taken, the row is absent, or the row is deleted, whatever its transfer; otherwise its view has that movement set and nothing else changed, the row locked |
| DeletedRows.ARepointIsRefusedExactlyWhen | app/deleted_row_infrastructure.py:171-193 | an update pointing a movement at another row is refused under the same condition and otherwise stores exactly the new facts |
| DeletedRows.AResaveIsNeverRefused | app/deleted_row_infrastructure.py:171-176 | re-saving a movement where it is is never refused, under a deleted row too, stores the new facts and locks no row |
| DeletedRows.AnUpdatedRowIsAsWritten | app/deleted_row_infrastructure.py:234-239 | an update of a row stores it and queues a check exactly when the row is left deleted with no transfer |
| DeletedRows.ACheckRefusesExactlyWhen | app/deleted_row_infrastructure.py:199-222 | the deferred check fails the transaction exactly when the row is still deleted, has no transfer and holds a movement |
| DeletedRows.TransactionsBeginAndEnd | app/deleted_row_infrastructure.py:199-222 | a commit publishes the whole view once no check is queued; a rollback leaves no trace |
| DeletedRows.Database.WriteAMovement | app/deleted_row_infrastructure.py:171-193 | the arrival trigger: a re-save asks nothing, otherwise the row is locked whatever its state and only then read |
| DeletedRows.Database.UpdateARow | app/deleted_row_infrastructure.py:229-240 | an UPDATE naming is_deleted or transfer_id queues the hiding check exactly when its WHEN holds |
| DeletedRows.Database.Commit | app/deleted_row_infrastructure.py:199-222 | every queued check is asked of the row as it stands, then the writes are published or undone whole |
| Journal.LedgerStaysBalanced | app/posting_infrastructure.py:96-154 | over every interleaving each committed entry with a leg has two or more, summing to zero, and the ledger sums to zero |
| Journal.TrialBalance | app/posting_infrastructure.py:110-127 | entries that each balance add up to a ledger that sums to zero |
| Journal.PublishLeavesOthersSound | app/posting_infrastructure.py:112-127 | a commit moves no entry's balance in the view of another transaction appending to it |
| Journal.CommitNowKeeps | app/posting_infrastructure.py:149-154 | draining every queued check, then publishing, keeps the ledger balanced |
| Journal.CommitNowIsAllOrNothing | app/posting_infrastructure.py:96-132 | a commit publishes what the transaction saw exactly when every queued entry has two legs or more summing to zero, and otherwise nothing |
| Journal.AppendThenDisposeAborts | app/posting_infrastructure.py:141-154 | a leg inserted and its entry disposed of in one transaction is still checked, and aborts |
| Journal.OneLegDeletedBreaksTheTrialBalance | app/posting_infrastructure.py:225-232 | nothing is asked of a DELETE: removing one leg unbalances the ledger by that leg, which is what the revoked privilege prevents |
| Journal.EntryIsBalanced | app/posting_infrastructure.py:107-127 | the accumulated sum and count decide exactly whether an entry balances |
| Journal.AnAppendIsTakenExactlyWhen | app/posting_infrastructure.py:149-154 | an append is refused exactly when its amount is zero or its entry does not stand, and otherwise stages that leg as given and queues its entry |
| Journal.AnEntryInHandIsWaitedFor | app/posting_infrastructure.py:141-148 | while one transaction has created or disposed of an entry, another's append, creation or disposal of it waits; while one has appended to it, another's creation or disposal does |
| Journal.ADisposalTakesTheWholeEntry | app/posting_infrastructure.py:141-148 | a disposal takes every leg of its entry and none of another, and takes no check off the queue |
| Journal.ACheckRefusesExactlyWhen | app/posting_infrastructure.py:110-127 | the deferred check fails the transaction exactly when the entry has fewer than two legs or they do not sum to zero |
| Journal.AnEditRaises | app/posting_infrastructure.py:225-232 | an UPDATE or DELETE of a leg fails the transaction, the privilege being revoked |
| Journal.TransactionsBeginAndEnd | app/posting_infrastructure.py:149-154 | a commit publishes exactly the legs and entries the transaction saw, once nothing is queued |
| Journal.LegsAreCounted | app/posting_infrastructure.py:112-115 | the count the check reads is the number of places the entry has in the ledger |
| Journal.Ledger.AppendALeg | app/posting_infrastructure.py:149-154 | an append holds its entry, stages its leg and queues the entry's check, or fails the transaction |
| Journal.Ledger.Commit | app/posting_infrastructure.py:96-132 | each queued entry is recomputed from every leg the transaction sees, and one refusal undoes the transaction |
| AppendOnly.CommitExplainsEveryLoss | app/append_only_infrastructure.py:226-297 | after any committed transaction each earlier row is unedited, or its account is gone, or its second owner is gone; a release may lose only the cause whose import was deleted |
| AppendOnly.LossesTraceToAnOwner | app/append_only_infrastructure.py:263-292 | a release is lost only with its account or its level's import, a loan withdrawal only with its account |
| AppendOnly.WhileItsOwnersStandARowStands | app/append_only_infrastructure.py:263-292 | a level is as it was while its account and import stand at commit; openings, loan statements and withdrawals while their account does |
| AppendOnly.ACauseIsLostOnlyWithItsImport | app/append_only_infrastructure.py:226-278 | a release whose account and level's import stand is there unedited, but for a cause whose import a statement deleted by name or with its account |
| AppendOnly.LevelsAndReleasesOutlive | app/append_only_infrastructure.py:263-278 | over every run a level and its releases outlive everything but their account and the level's import |
| AppendOnly.TheRestOutlive | app/append_only_infrastructure.py:279-292 | over every run openings, loan statements and withdrawals outlive everything but their account |
| AppendOnly.NoWrittenUpdatePasses | app/append_only_infrastructure.py:226-250 | while the keys hold, no hand-written UPDATE passes the arm |
| AppendOnly.CascadePassesTheArm | app/append_only_infrastructure.py:94-103 | the key's own SET NULL is the transition the arm admits |
| AppendOnly.ImportDisposalCommits | app/append_only_infrastructure.py:263-278 | deleting an import commits, taking its levels and their releases |
| AppendOnly.AccountCascadeIsExact | app/append_only_infrastructure.py:287-292 | the cascade from an account takes its rows and no others |
| AppendOnly.AccountDisposalCommits | app/append_only_infrastructure.py:252-258 | deleting an account commits and leaves the database without its rows |
| AppendOnly.DeleteAndRecreateIsRefused | app/append_only_infrastructure.py:252-292 | deleting an account and re-creating its id is refused exactly when it has history of its own |
| AppendOnly.ABankOnlyAccountIsNotProtected | app/append_only_infrastructure.py:263-270 | a concrete account with one bank level is deleted and put back, its level lost |
| AppendOnly.TruncateStoresNothing | app/append_only_infrastructure.py:213-224 | a transaction that truncates one of the tables stores nothing |
| AppendOnly.AnUpdateStoresNothing | app/append_only_infrastructure.py:226-250 | a transaction with an UPDATE of a row of the five tables stored when the statement runs stores nothing, for any statements before and after and any new values |
| AppendOnly.AnUpdatePassesExactlyWhen | app/append_only_infrastructure.py:233-250 | on any view an UPDATE of a stored release passes exactly when it takes off a cause whose import has gone and touches no other column |
| AppendOnly.ARefusedInsertStoresNothing | app/models/account.py:369-402 | a transaction with an INSERT that a key refuses as things stand at the statement stores nothing, for any statements before and after |
| AppendOnly.AnUpdateOfNothingPasses | app/append_only_infrastructure.py:226-250 | an UPDATE that finds no row does nothing |
| AppendOnly.ARowPickedOffStays | app/append_only_infrastructure.py:252-294 | a row of any of the five tables deleted on its own is there after the commit |
| AppendOnly.ImportCascadeIsExact | app/append_only_infrastructure.py:263-278 | deleting an import takes its levels and their releases, makes other releases lose it as a cause, and leaves every other row of every table as it was |
| AppendOnly.AnInsertedParentIsAsGiven | app/models/account.py:369-392 | an account, import, opening or statement is stored as given, or refused on a taken id or a missing owner and then nothing is stored |
| AppendOnly.AnInsertedChildIsAsGiven | app/models/anchor_release.py:109-122 | a level, release or withdrawal is stored as given exactly when the rows it names stand, are of its own account and are not so named already |
| AppendOnly.ADeletedImportWasNamed | app/append_only_infrastructure.py:94-103 | a transaction that deletes no account loses no import but those it names |
| AppendOnly.Session.RefusesDelete | app/append_only_infrastructure.py:252-294 | the deferred arm asks each table's second owner first, then the account |
| AppendOnly.Session.UpdateARelease | app/append_only_infrastructure.py:226-250 | the update arm at the statement |
| AppendOnly.CascadeToLevels | app/models/account.py:369-392 | the loop over the levels deletes and queues exactly those whose import has gone |
| AppendOnly.CascadeToReleases | app/models/anchor_release.py:109-115 | the loop over the releases deletes and queues exactly those whose level has gone |
| AppendOnly.NullTheCauses | app/models/anchor_release.py:116-122 | each release whose cause has gone loses it and nothing else, by an UPDATE the arm admits |
| AppendOnly.SweptTableByTable | app/models/anchor_release.py:109-122 | the keys' actions one table after another leave the database swept of the import at once |
| AppendOnly.Session.DeleteAnImport | app/models/account.py:369-392 | deleting the row and running the three loops leaves, and queues, what the transaction model's one sweep does |
| AppendOnly.Session.Commit | app/append_only_infrastructure.py:341-344 | every queued delete is asked of the end state, and one refusal undoes the transaction |
| Levels.EveryLevelLiesWithinItsFile | app/level_infrastructure.py:74-159 | over every run of transactions, each level that names a file lies between the day before its declared start and the earlier of its declared end and its stated day, which is present |
| Levels.EachGuardIsNeeded | app/level_infrastructure.py:18-27 | that holds over every run if and only if both attachments and the append-only refusal of a level UPDATE are in force |
| Levels.PlacementTakenExactlyWhen | app/level_infrastructure.py:84-110 | a level is stored exactly when its file exists, states its figure, has no other placement and admits the day |
| Levels.MoveTakenExactlyWhen | app/level_infrastructure.py:112-159 | a file's columns move exactly when the row stays legal and its own placement stays within |
| Levels.TheRuleRefusesOnlyADefiniteNo | app/level_infrastructure.py:74-82 | the three-valued rule answers No exactly when a present bound is broken, and Yes exactly when all three are present and hold |
| Levels.ChangedColumnsAreThoseNamed | app/level_infrastructure.py:112-136 | an UPDATE of a file replaces each column its SET list names and no other |
| Levels.WhatIsTakenIsStored | app/level_infrastructure.py:84-136 | a placement or a move that is taken stores that row and nothing else |
| Levels.ImportsComeAndGo | app/level_infrastructure.py:138-159 | a file is stored as given under its CHECKs, deleted with exactly the levels that name it, and renumbered exactly when no level does |
| Levels.AnUnrefusedUpdateMeetsTheKeys | app/models/account.py:384-402 | without the append-only refusal an UPDATE of a level would be held to its keys alone |
| Levels.ARaiseStoresNothing | app/level_infrastructure.py:84-136 | a transaction with a statement that raises stores nothing, whatever comes before or after |
| Levels.Session.InsertALevel | app/level_infrastructure.py:84-110 | the arm on levels, then the keys |
| Levels.Session.FindStranded | app/level_infrastructure.py:118-124 | a stranded level of this file is found exactly when there is one |
| Levels.Session.UpdateAnImport | app/level_infrastructure.py:112-136 | the arm on imports fires only when a bound is named, then the CHECKs and keys |
| Sightings.AnyOrderGivesTheOutcome | app/sighting_infrastructure.py:75-99 | whatever the interleaving of row removals and triggers, the lines removed are those asked for and exactly those left with no sighting |
| Sightings.SomeOrderFinishes | app/sighting_infrastructure.py:96-99 | from wherever a DELETE has got to there is an order of what is left that finishes it |
| Sightings.OrderDoesNotMatter | app/sighting_infrastructure.py:28-32 | any two orders of one DELETE leave the same database |
| Sightings.ADeleteTakesExactly | app/sighting_infrastructure.py:75-99 | deleting imports takes exactly their sightings and exactly the lines that had one and have no other left; likewise deleting sightings, and lines |
| Sightings.TheTriggerDeletesExactlyWhen | app/sighting_infrastructure.py:75-88 | the trigger takes the line of the deleted row exactly when no sighting stands on it, and nothing else |
| Sightings.StatementKeepsExactlyWhenHarmless | app/sighting_infrastructure.py:75-99 | a statement keeps every sighted line backed if and only if it does not re-point or truncate away a line's last sighting |
| Sightings.AStandingLineIsRemembered | app/sighting_infrastructure.py:3-20 | a line that has had a sighting is remembered while it stands, and one that has not is not |
| Sightings.EveryStandingLineIsBacked | app/sighting_infrastructure.py:3-20 | over every run of such statements a line that has had a sighting and still stands has one |
| Sightings.Session.RemoveLineLeftUnsighted | app/sighting_infrastructure.py:75-88 | the trigger body deletes the line exactly when no sighting of it remains |
| Sightings.Session.DeleteTheImports | app/sighting_infrastructure.py:96-99 | a cascade of any size, each trigger fired, leaves the order-free outcome |
| Audit.TheLogTellsTheWholeHistory | app/audit_infrastructure.py:341-420 | over any history, rollbacks and savepoints included, the entries replay the earlier table into the later, do so from changed_fields alone, undo it back, and hold every version no longer stored |
| Audit.EveryEarlierStateIsRecovered | app/audit_infrastructure.py:366-415 | cut a history anywhere: the state there is the last one undone back to it, and the log so far replayed |
| Audit.SuppressedExactlyWhenUnchanged | app/audit_infrastructure.py:395-407 | an UPDATE writes no log row exactly when it left the row as it was |
| Audit.ChangedFieldsAreThoseThatDiffer | app/audit_infrastructure.py:395-401 | a column is logged as changed exactly when the new row has it and the old one has not, or has another value |
| Audit.AnInsertIsStoredAndLogged | app/audit_infrastructure.py:377-386 | an insert stores the row given with an entry holding it, or raises on a taken id or a row that does not fit |
| Audit.ADeleteIsTakenAndLogged | app/audit_infrastructure.py:366-375 | a delete takes the row with an entry holding it as it was |
| Audit.AnUpdateIsStoredAndLogged | app/audit_infrastructure.py:388-415 | an update stores the row given with an entry holding both rows and naming exactly the columns that differ, or no entry when none does |
| Audit.ABlockIsAllOrNothing | app/audit_infrastructure.py:341-420 | a block rolled back, or one in which an operation raises, leaves neither rows nor log |
| Audit.FieldsSuffice | app/audit_infrastructure.py:388-415 | replaying only the changed fields gives the same table |
| Audit.UndoRecovers | app/audit_infrastructure.py:366-415 | a trail undone latest first gives the table it began on |
| Audit.NoVersionIsLost | app/append_only_infrastructure.py:104-114 | a stored row version is still in the table or in an entry's old data |
| Audit.TruncateIsToldExactlyWhenRefused | app/append_only_infrastructure.py:104-114 | a TRUNCATE keeps the log complete exactly when it is refused or the table is empty |
| Audit.AuditedTable.CollectChanged | app/audit_infrastructure.py:395-401 | the loop collects the keys that are new or distinct, in order |
| Audit.AuditedTable.InsertRow | app/audit_infrastructure.py:377-386 | an insert and its log entry come together, or neither |
| Audit.AuditedTable.DeleteRow | app/audit_infrastructure.py:366-375 | a delete logs the row it took |
| Audit.AuditedTable.UpdateRow | app/audit_infrastructure.py:388-415 | the row and its log entry change together, or neither |
| AuditCensus.AShortCountNamesTables | app/audit_infrastructure.py:214-231 | a short count names at least as many audited tables as it is short by, each without its trigger, whatever surplus exists |
| AuditCensus.RefusesExactlyWhenMissingOutnumberSurplus | app/audit_infrastructure.py:171-201 | the check refuses if and only if the missing triggers outnumber the surplus ones |
| AuditCensus.TheCountInParts | app/audit_infrastructure.py:239-254 | found plus missing is audited plus surplus |
| AuditCensus.ATriggerCountsExactlyWhen | app/audit_infrastructure.py:165-168 | one more trigger counts exactly when it is not internal and its name begins with audit_ |
| AuditCensus.TheMissingAreInListOrder | app/audit_infrastructure.py:239-254 | the tables reported missing come in the order they are listed |
| AuditCensus.TwoSnapshotsMayNameNothing | app/audit_infrastructure.py:257-268 | read as two statements, a short count could name no table |
| AuditCensus.RunningThePrintedStatementsRepairs | app/audit_infrastructure.py:216-230 | the printed CREATE statements all run, leave nothing missing and the count full, and the check then passes |
| OwnerLock.SerialInLockOrder | app/db_transaction.py:137-160 | any interleaving over any owners, rolled-back commands included, leaves what the committed commands leave one after another in lock order, each once |
| OwnerLock.OperateStaysOnCourse | app/db_transaction.py:22-34 | an operation under the lock is the one the command would do alone |
| OwnerLock.AnOperationReadsAndWrites | app/db_transaction.py:22-34 | a read answers with the row the session holds, else its own write, else what is committed; a field write replaces, a posting adds |
| OwnerLock.FreshlyLockedIsOnCourse | app/db_transaction.py:711-736 | with the user's row expired, nothing read before the lock outlives it |
| OwnerLock.SerialInserts | app/db_transaction.py:137-150 | committing now is committing at one's place in the lock order |
| OwnerLock.TheAbortedNeverCommit | app/db_transaction.py:576-589 | a command rolled back while it holds its lock is never among the committed, then or after any further actions, and the store is the serial one without it |
| OwnerLock.AnAbortUndoes | app/db_transaction.py:576-589 | a rollback leaves the store and the commits as they were, closes the transaction, and frees its lock for the next waiter |
| OwnerLock.TheUnopenedNeverCommit | app/db_transaction.py:576-589 | a command rolled back before its lock is never among the committed unless its id is opened again |
| OwnerLock.TheLockIsGrantedExactlyWhen | app/db_transaction.py:137-160 | the lock is granted exactly when no other open transaction holds the same owner's, and the user's row is expired with it |
| OwnerLock.ACommitPublishesItsWrites | app/db_transaction.py:794-797 | a commit is taken exactly of a locked, finished command, and changes its owner's data by its writes and nobody else's |
| OwnerLock.NoUpdateIsLost | app/db_transaction.py:22-34 | concurrent read-modify-write commands of one owner lose no update |
| OwnerLock.PostedMatchesFact | app/db_transaction.py:22-34 | however reconciles race, the figure asserted and the figure posted both end as those of the last reconcile committed, last in lock order; with none committed the owner's data is as it was |
| OwnerLock.NobodyDeadlocks | app/db_transaction.py:150-160 | with one key per transaction, taken first, some transaction can always move |
| OwnerLock.WithoutTheExpiryACountIsLost | app/db_transaction.py:684-689 | without the expiry two wrong passwords count once |
| OwnerLock.WithoutTheLockReconcilesDiverge | app/db_transaction.py:22-34 | without the lock the ledger ends away from the figure asserted |
| Requests.EveryTransactionIsBoundOnce | app/db_transaction.py:340-390 | on every path of a dispatched request, raising ones included, the open transaction has the mode in force, a query's is bound and locked for nobody, a command's for exactly the recorded actor and owner, once each |
| Requests.AfterTheHooks | app/db_transaction.py:592-737 | after both hooks every command transaction open then or later is bound once and locked once, no query transaction is |
| Requests.RefusedBeforeTheHookHoldsNothing | app/db_transaction.py:654-672 | a request refused before the lock hook never holds a lock |
| Requests.EveryLaterStatementIsLocked | app/db_transaction.py:137-160 | from the lock hook on every read or write of a command transaction runs under its owner's lock and no other, and in a command request the user's row read before it is not loaded any more |
| Requests.TheFirstHookBinds | app/db_transaction.py:592-651 | the first hook binds an open command transaction to the actor, arms the actor, leaves the owner pending and takes no lock |
| Requests.TheSecondHookLocks | app/db_transaction.py:654-737 | the second takes the pending owner's lock on an open command transaction, expires the actor's loaded row and arms the owner; no owner, no lock |
| Requests.ASignInLocks | app/db_transaction.py:675-699 | sign-in takes the lock of the owner found and expires the person's row, recording no actor |
| Requests.AHookNotDueDoesNothing | app/db_transaction.py:592-737 | the second hook does nothing with no owner pending, the first and sign-in nothing once somebody is known, and none of them in a block or on a transaction past serving |
| Requests.ATeardownSavesNothing | app/db_transaction.py:576-589 | a request's end saves nothing: a dispatched one's open transaction is rolled back, one never dispatched leaves what it found |
| Requests.ARequestStarts | app/db_transaction.py:393-471 | a query is dispatched with no transaction open and nothing saved by it, or refused on uncommitted writes; a command keeps the transaction it found |
| Requests.ArmedEarlyARefusedRequestLocks | app/db_transaction.py:284-291 | a request short of its lock hook never holds a lock, over every run; with the owner armed by the first hook there is a refused request that does |
| Requests.NothingSurvivesTeardown | app/db_transaction.py:576-589 | after teardown no mode, actor, pending owner or owner is recorded, even if the rollback raises, and the transaction is ended or dead |
| Requests.WithoutFinallyKeysOutlive | app/db_transaction.py:578-589 | without the `finally`, keys outlive the request exactly when it was dispatched, has a transaction open and the rollback raises |
| Requests.RefusedExactlyOnUncommittedWrites | app/db_transaction.py:445-471 | a query is refused exactly on a transaction that has written, records nothing, and leaves those writes open through its teardown |
| Requests.AQueryRendersFromSnapshots | app/db_transaction.py:741-806 | with any number of blocks and whichever of body, commit or rollback raises: one snapshot between transaction ends, snapshots never go back, no write outside a block |
| Requests.ACommittedBlockIsSeen | app/db_transaction.py:746-797 | over every run of a query request, a write made in a block that commits is in what every later read sees, and every read before the write saw strictly less |
| Requests.AReadSees | app/db_transaction.py:340-390 | a query reads what was saved when its snapshot was taken, a command what is saved now and its own writes; the first statement begins a transaction bound by what is on g |
| Requests.AFirstStatementBegins | app/db_transaction.py:339-390 | a savepoint, read or write with no transaction open begins one: a query's bound and locked for nobody, a command's for the recorded actor and owner |
| Requests.AWriteIsStagedOrRefused | app/db_transaction.py:340-390 | a write is staged in a command, refused in a query's READ ONLY transaction, and saves nothing by itself |
| Requests.ACommitSavesItsWrites | app/db_transaction.py:794-797 | a commit saves exactly what its transaction wrote, after everything saved before, and a query begun next sees it; one that raises saves nothing |
| Requests.ARollbackSavesNothing | app/db_transaction.py:576-580 | a rollback saves nothing, and one that raises leaves the transaction past serving |
| Requests.ABlockIsEnteredFromAQuery | app/db_transaction.py:769-793 | a block is entered from a query alone, its snapshot ended first; a refused entry changes nothing |
| Requests.ABlockIsLeft | app/db_transaction.py:794-806 | a block left saves its writes exactly when its body and commit did not raise, and restores the query mode either way |
| Requests.RestoredLateARenderCanWrite | app/db_transaction.py:799-806 | no write outside a block over every run as written; restored after the rollback instead, there is a run with one |
| Requests.Request.Rollback | app/db_transaction.py:576-580 | a session rollback ends the transaction, or raises and leaves it past serving |
| Requests.Request.Commit | app/db_transaction.py:794-798 | a session commit ends the transaction and appends exactly what it wrote to what is saved, or raises and saves nothing |
| Requests.Request.EnsureBegun | app/db_transaction.py:339-390 | the listener binds a new transaction by what is on g |
| Requests.Request.Dispatch | app/db_transaction.py:393-471 | the mode recorded last, after the refusal and the rollback |
| Requests.Request.BindRequestActor | app/db_transaction.py:647-651 | the open command transaction is bound, then g |
| Requests.Request.LockTheOpenTransaction | app/db_transaction.py:728-737 | an owner not known takes and arms nothing; the open command transaction is locked, the user's loaded row expired, then g armed |
| Requests.Request.TakeTheRequestOwnersLock | app/db_transaction.py:669-672 | the pending owner is popped and locked |
| Requests.Request.EnterWriteTransaction | app/db_transaction.py:769-793 | entered only from a query, after the snapshot is ended |
| Requests.Request.LeaveWriteTransaction | app/db_transaction.py:794-806 | commit, restore the mode, roll back what did not commit |
| Requests.Request.Teardown | app/db_transaction.py:576-589 | end a dispatched request's transaction and pop every key, on the way out of a rollback that raised and on the ordinary way out |
| Deploy.TheDeploySavesAllOrNothing | scripts/init_database.py:605-678 | for every list of session, connection and migration operations the database ends as it began, or with every write, the second only when the deploy returned |
| Deploy.ItSavesExactlyWhenClean | scripts/init_database.py:627-651 | it returns if and only if no step raised, no rollback hit the deploy's transaction, and nothing but an empty flush or a rollback used the session after a stray commit |
| Deploy.EachSettingIsNeeded | scripts/init_database.py:564-602 | all or nothing holds over every list if and only if the join is rollback_only, autobegin is off and the runner begins a transaction where there is none |
| Deploy.ASessionStatementFlushesFirst | scripts/init_database.py:564-576 | a session statement carries what is staged, before its own writes, into the transaction in force; with none of its own it is refused under autobegin=False |
| Deploy.ASessionCommitSaves | scripts/init_database.py:564-570 | a commit of the session saves the deploy's transaction only under a join that passes it on |
| Deploy.ASessionRollbackEnds | scripts/init_database.py:564-570 | a session rollback ends the transaction in force and drops what is staged |
| Deploy.AConnectionStatementLands | app/migration_runner.py:63-70 | a statement on the connection lands in the transaction in force; a runner that begins none has Alembic save its own |
| Deploy.TheFinalCommitIsInOrder | scripts/init_database.py:627-651 | the deploy's end saves every write in order, the staged ones last, or nothing |
| Deploy.Process.RunOnConnection | app/migration_runner.py:63-70 | a statement on the connection lands in the active transaction, or in one nobody commits |
| Deploy.Process.RunOnSession | scripts/init_database.py:564-576 | a session statement flushes what is staged into the deploy's transaction, or raises when the session holds none |
| Deploy.Process.RollBackTheSession | scripts/init_database.py:564-570 | a session rollback ends the deploy's transaction with it |
| Deploy.Process.RunStep | app/migration_runner.py:63-70 | each operation, the runner's begin included |
| Deploy.Process.Initialise | scripts/init_database.py:586-602 | the whole deploy refines the model, and the session slot is put back on every path |
| Calendar.DayNumberOrders | migrations/_recurrence_two_axis_backfill.py:264-280 | counting days keeps the order of dates, leap years included |
| Calendar.DaysAndDatesAgree | migrations/_recurrence_two_axis_backfill.py:270-280 | adding days to a date and subtracting dates are inverse |
| Calendar.EndOfMonthIsItsLastDay | migrations/_recurrence_two_axis_backfill.py:237-246 | the first of a month plus a month less a day is its last day |
| Calendar.YearsHaveTheirDays | migrations/_recurrence_two_axis_backfill.py:264-280 | the days before any year are 365 for each year and one for each leap year, by the closed form |
| Calendar.MonthsHaveTheirLengths | migrations/_recurrence_two_axis_backfill.py:234-246 | every month has its length, February by the leap rule |
| Recurrence.CalendarArmIsLeast | migrations/_recurrence_two_axis_backfill.py:196-262 | for every effective date, day, month and step the calendar arm gives the least clamped date of the rule's residue class on or after the effective date, so one look-ahead suffices |
| Recurrence.NormalisationChangesNothing | migrations/_recurrence_two_axis_backfill.py:202-226 | dropping the added month_step under a sign-keeping remainder never changes the chosen date |
| Recurrence.PayPeriodArmIsGreatest | migrations/_recurrence_two_axis_backfill.py:266-280 | the pay-period arm gives the greatest payday at or before the effective day in the schedule extended forever |
| Recurrence.PayPeriodStartIsGreatest | migrations/_recurrence_two_axis_backfill.py:266-280 | the same, stated by dates |
| Recurrence.FirstOfMonthArmIsEarliest | migrations/_recurrence_two_axis_backfill.py:281-302 | the first-of-month arm gives the 1st of the earliest qualifying month, and falls back exactly when every payday on or after the effective date lies in its own month behind an earlier one |
| Recurrence.FilledExactlyWhenNotRefused | migrations/_recurrence_two_axis_backfill.py:72-113 | a rule is filled exactly when the input check did not refuse it, and the two refused states fail differently |
| Recurrence.BackfillMeansTheRulesFirstDate | migrations/_recurrence_two_axis_backfill.py:180-345 | what the whole statement stores for a calendar pattern is the rule's first date, in its 1-, 3-, 6- or 12-month cycle, on or after the later of the owner's first payday and the rule's start date |
| Recurrence.BackfillMeansTheCoveringPayday | migrations/_recurrence_two_axis_backfill.py:173-345 | and for a pay-period pattern the payday of the span holding that date, under the schedule's cadence or else the last period's length |
| Recurrence.BackfillMeansTheFirstOfAMonth | migrations/_recurrence_two_axis_backfill.py:180-345 | and for the first-of-month pattern the 1st of the earliest month whose first payday is not before that date, else of the month after it |
| Recurrence.BackfillReadsThePattern | migrations/_recurrence_two_axis_backfill.py:312-343 | the unit and the placement stored for each of the seven patterns, and no nominal day but a calendar pattern's authored one |
| Recurrence.NominalDayLosesNothing | migrations/_recurrence_two_axis_backfill.py:332-343 | nominal_day, else the day of starts_on, is the authored day, and the pair meets the column's CHECK |
| Recurrence.StoredPairNamesItsDate | app/models/recurrence_rule.py:220-228 | any pair the CHECK admits names its own first date again |
| Recurrence.WithoutTheNominalDayARuleDecays | migrations/_recurrence_two_axis_backfill.py:234-246 | without the nominal day a clamped monthly rule moves in some later month |
| Cluster.Machine.Stop | scripts/private_cluster.py:736-776 | everything carrying the token is removed or named and every survivor was asked to go; nothing without the token is asked for or taken; "may have survived" is said exactly when a docker command failed |
| Cluster.Machine.StopContainers | scripts/private_cluster.py:763-772 | containers found by label, removed by id and asked for again; those still there are the ones named |
| Cluster.Machine.Labelled | scripts/private_cluster.py:511-523 | the ids carrying the label, or a failure, never an empty answer for one |
| Cluster.Machine.Remove | scripts/private_cluster.py:765-766 | docker rm takes some of the ids it was given and nothing else |
| Cluster.Machine.RemoveDirectory | scripts/private_cluster.py:773-775 | the token's directory goes unless the filesystem keeps it, and no other does |
| Cluster.Machine.MakeSocketDirectory | scripts/private_cluster.py:577-594 | made exclusively: success means it was not there before |
| Cluster.Machine.RunContainer | scripts/private_cluster.py:597-636 | a container that comes of it carries the token from the start, whether or not the command then fails |
| Cluster.Machine.AwaitAnAnswer | scripts/private_cluster.py:658-667 | the loop ends with an accepting probe and no signal held, with a signal, or with a failure: docker did not answer a probe, or the deadline passed with none accepted; at least one probe is made, and no later one begins more than a sleep past the deadline |
| Cluster.Machine.WaitReady | scripts/private_cluster.py:639-669 | ready only after a probe answered with no signal held and the socket is in place; it fails on a probe unanswered, at the deadline, or on an answer that left no socket |
| Cluster.Machine.Act | scripts/private_cluster.py:305-314 | the start ends here exactly when a signal is held |
| Cluster.Machine.Release | scripts/private_cluster.py:316-323 | handlers restored, and the first signal recorded after the last look raised again when handing over |
| Cluster.Machine.MakeContainer | scripts/private_cluster.py:712-716 | the directory and then the container, with a look after each: no docker run begins with a signal held, and what is made carries the token |
| Cluster.Machine.Make | scripts/private_cluster.py:712-720 | what the try block makes: a failure, an interruption at a look, or a ready labelled container |
| Cluster.Machine.EndByStopping | scripts/private_cluster.py:722-732 | a stop that accounts for everything, then an end by the first signal held, or by the failure when none was |
| Cluster.Machine.EndByHandingOver | scripts/private_cluster.py:719-734 | the cluster returned, and the first signal recorded since the last look raised again |
| Cluster.Machine.Start | scripts/private_cluster.py:672-733 | refused exactly at the door's checks; else handed over, accepting connections with its socket in place, exactly when no step failed and no look found a signal; else everything carrying the token removed or named, by the first signal if one was held; other callers' containers untouched |
| MigrationHead.FindHead | scripts/build_test_db_image.py:301-316 | a head is returned exactly when one revision is nobody's parent, and it is that one |
| MigrationHead.EveryRevisionIsAnAncestorUnlessShutOff | scripts/build_test_db_image.py:301-316 | on any edges every revision is an ancestor of the head if and only if no set of revisions is shut off from it |
| MigrationHead.EveryRevisionIsAnAncestorExactlyWhen | scripts/build_test_db_image.py:301-316 | on acyclic edges, with any number of parents, every revision is an ancestor of the head returned if and only if every other one is named by a file that declares itself |
| MigrationHead.EveryRevisionIsAnAncestor | scripts/build_test_db_image.py:285-288 | so it is on every acyclic chain whose files that name a parent all declare themselves |
| MigrationHead.AWholeWalkExists | scripts/build_test_db_image.py:285-288 | on acyclic edges the walk down from the head ends at a revision with no declared parent |
| MigrationHead.TheHeadsChainHoldsEveryRevision | scripts/build_test_db_image.py:282-316 | with single parents the walk down from the head exists, ends and holds every revision if and only if the edges are acyclic and every other revision is named by a file that declares itself |
| MigrationHead.ACycleIsMissed | scripts/build_test_db_image.py:310-316 | beside a cycle a head is returned that is not above every revision |
| MigrationHead.AnUndeclaredFileHidesAHead | scripts/build_test_db_image.py:305-309 | so is one when a file names a parent and no id of its own |

## Left out

What the models assume:

- Transactions are READ COMMITTED with a statement's reads taken at one instant; row locks are held to the transaction's end, and a wait is a step that changes nothing.
- AppendOnly, Levels and Sightings take transactions one at a time, which is what the owner lock gives requests; the rules take no lock of their own.
- In Requests a commit or rollback that raises leaves a transaction that serves no further statement until it is rolled back; the snapshot of a query is taken at its begin.
- In Requests the hooks run once each, the first before the second, and sign-in only where nobody is signed in; a session with no transaction open has no row loaded, since a transaction's end expires them.
- In OwnerLock a command is any deterministic program over its owner's data and its answers, and operates only under its owner's lock, which Requests.EveryLaterStatementIsLocked derives from the listener and the hooks; commands that are not signed in, and the deploy reconciles' lock on every owner, are not modelled.
- OwnerLock.TheUnopenedNeverCommit: a transaction rolled back before it took its lock may be opened again under the same id, and may then commit.
- AppendOnly takes any database under the foreign keys, whether or not its stored rows meet the unique keys, which are asked of each insert; the key that ties a level's figure to its file's claim is in Levels.
- In Cluster what a docker command has not done when it returns it never does, and no other caller makes a container with this start's token.
- Cluster.Machine.Start: a signal that lands once a failed start has looked for signals for the last time is outside the model, and of several signals recorded after the last look only the first is promised to be raised again, as the code has it.

What the repository does that is not modelled:

- Savepoints, except in Audit (blocks rolled back or released) and as a plain begin in Requests.
- Triggers disabled by session_replication_role or dropped by the table's owner, and audit retention.
- The cascade from budget.ledger_accounts that can remove single legs: Journal disposes of whole entries.
- Keys from other tables onto the audited and append-only ones: the match-member key that refuses a line's delete (app/sighting_infrastructure.py:22-24), clearing links and other restricting keys.
- The account columns of imports, levels and sightings in Levels and Sightings: the rules do not read them, and AppendOnly has the account keys.
- The audit row's acting user, and changes of a table's columns between log entries.
- Explicit session.begin(), second connections, connection-level commits and raw COMMIT text inside the deploy: the code excludes them by census (scripts/init_database.py:653-668).
- In Deploy staging a row on an ended session is taken not to raise; the final flush then does.
- The backfill's shift_id, which is the constant 'none' on every rule.
- Dates before year 1, infinity dates, and time zones.
- Exceptions of another kind inside a start (an OSError between looking for the socket and its stat): they skip the start's own stop, and its caller stops by the token.
- KILL signals, docker's own behaviour, the client tool, the URL and the messages' wording.
- Reading a revision id out of a file's text (scripts/migration_chain.py:25-40), and merge migrations' tuples, which that parser does not read.
- app/opening_infrastructure, app/pay_stub_infrastructure, the posting, pay-calendar and import services, Flask plumbing, seeds, integrity checks and image baking.
