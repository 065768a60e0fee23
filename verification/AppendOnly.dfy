/** The append-only account tables (app/append_only_infrastructure.py).

    One transaction at a time runs any list of statements over the five tables, with
    their foreign keys' cascades; the UPDATE and TRUNCATE arms answer at the statement,
    the DELETE arm at COMMIT.  A raised arm, or a refused key, undoes the transaction. */
module AppendOnly {
  import opened Wrappers

  /** budget.account_anchor_history: `source` is the import that observed it, if a bank's. */
  datatype Level = Level(account: nat, source: Option<nat>, facts: int)

  /** budget.anchor_releases: the level withdrawn, and the import that was its cause. */
  datatype Release = Release(account: nat, level: nat, cause: Option<nat>, facts: int)

  /** budget.account_openings and budget.loan_anchor_events. */
  datatype Fact = Fact(account: nat, facts: int)

  /** budget.loan_anchor_withdrawals: the loan statement withdrawn. */
  datatype Withdrawal = Withdrawal(account: nat, event: nat, facts: int)

  datatype Db = Db(
    accounts: set<nat>,
    imports: map<nat, nat>,
    levels: map<nat, Level>,
    releases: map<nat, Release>,
    openings: map<nat, Fact>,
    events: map<nat, Fact>,
    withdrawals: map<nat, Withdrawal>)

  /** A queued DELETE: the OLD row of one of the five tables. */
  datatype Deleted =
    | LevelGone(level: Level)
    | ReleaseGone(release: Release)
    | OpeningGone(opening: Fact)
    | EventGone(event: Fact)
    | WithdrawalGone(withdrawal: Withdrawal)

  /** An open transaction: its view, its queue, whether it has failed, and the imports its
      statements have deleted so far. */
  datatype Txn = Txn(db: Db, queue: set<Deleted>, failed: bool, importsDeleted: set<nat>)

  datatype Table = Levels | Releases | Openings | Events | Withdrawals

  datatype Statement =
    | InsertAccount(id: nat)
    | InsertImport(id: nat, account: nat)
    | InsertLevel(id: nat, level: Level)
    | InsertRelease(id: nat, release: Release)
    | InsertOpening(id: nat, fact: Fact)
    | InsertEvent(id: nat, fact: Fact)
    | InsertWithdrawal(id: nat, withdrawal: Withdrawal)
    | DeleteAccount(id: nat)
    | DeleteImport(id: nat)
    | Delete(table: Table, id: nat)
    | UpdateRelease(id: nat, release: Release)
    | UpdateOther(table: Table, id: nat)
    | Truncate(table: Table)

  // ---------------------------------------------------------------- the trigger function

  /** The UPDATE arm on a release: the one admitted transition, asked at the statement. */
  predicate UpdateAdmitted(imports: set<nat>, before: Release, after: Release) {
    before.cause.Some? && after == before.(cause := None) && before.cause.value !in imports
  }

  /** The DELETE arm, asked of the transaction's end state. */
  predicate DeleteAdmitted(end: Db, gone: Deleted) {
    match gone
    case LevelGone(l) => (l.source.Some? && l.source.value !in end.imports) || l.account !in end.accounts
    case ReleaseGone(r) => r.level !in end.levels || r.account !in end.accounts
    case OpeningGone(f) => f.account !in end.accounts
    case EventGone(f) => f.account !in end.accounts
    case WithdrawalGone(w) => w.event !in end.events || w.account !in end.accounts
  }

  // ---------------------------------------------------------------- foreign keys

  /** A row names rows of its own account. */
  predicate LevelKeyed(db: Db, l: Level) {
    l.account in db.accounts
    && (l.source.Some? ==> l.source.value in db.imports && db.imports[l.source.value] == l.account)
  }

  predicate ReleaseKeyed(db: Db, r: Release) {
    && r.account in db.accounts
    && r.level in db.levels && db.levels[r.level].account == r.account
    && (r.cause.Some? ==> r.cause.value in db.imports && db.imports[r.cause.value] == r.account)
  }

  predicate WithdrawalKeyed(db: Db, w: Withdrawal) {
    w.account in db.accounts && w.event in db.events && db.events[w.event].account == w.account
  }

  /** The unique keys: an import's one level, a level's one release, a loan statement's one withdrawal. */
  predicate HasALevel(db: Db, source: Option<nat>) {
    source.Some? && exists i :: i in db.levels && db.levels[i].source == source
  }

  predicate IsReleased(db: Db, level: nat) {
    exists i :: i in db.releases && db.releases[i].level == level
  }

  predicate IsWithdrawn(db: Db, event: nat) {
    exists i :: i in db.withdrawals && db.withdrawals[i].event == event
  }

  ghost predicate Keyed(db: Db) {
    && (forall i :: i in db.imports ==> db.imports[i] in db.accounts)
    && (forall i :: i in db.levels ==> LevelKeyed(db, db.levels[i]))
    && (forall i :: i in db.releases ==> ReleaseKeyed(db, db.releases[i]))
    && (forall i :: i in db.openings ==> db.openings[i].account in db.accounts)
    && (forall i :: i in db.events ==> db.events[i].account in db.accounts)
    && (forall i :: i in db.withdrawals ==> WithdrawalKeyed(db, db.withdrawals[i]))
  }

  // ---------------------------------------------------------------- statements with their cascades

  function KeptImports(db: Db, accounts: set<nat>, imports: set<nat>): map<nat, nat> {
    map i | i in db.imports && i !in imports && db.imports[i] !in accounts :: db.imports[i]
  }

  function KeptLevels(db: Db, accounts: set<nat>, levels: set<nat>, imports: set<nat>): map<nat, Level> {
    map i | i in db.levels && i !in levels && db.levels[i].account !in accounts
            && (db.levels[i].source.Some? ==> db.levels[i].source.value in imports) :: db.levels[i]
  }

  function KeptReleases(db: Db, accounts: set<nat>, levels: set<nat>, imports: set<nat>): map<nat, Release> {
    map i | i in db.releases && db.releases[i].account !in accounts && db.releases[i].level in levels
      :: CauseNulled(imports, db.releases[i])
  }

  function KeptWithdrawals(db: Db, accounts: set<nat>, eventsGone: set<nat>): map<nat, Withdrawal> {
    map i | i in db.withdrawals && db.withdrawals[i].account !in accounts && db.withdrawals[i].event !in eventsGone
      :: db.withdrawals[i]
  }

  function KeptFacts(facts: map<nat, Fact>, accounts: set<nat>, ids: set<nat>): map<nat, Fact> {
    map i | i in facts && i !in ids && facts[i].account !in accounts :: facts[i]
  }

  /** What is left of every table once these accounts, imports, levels and events are gone:
      each child goes with its parent, and a release whose cause went stays without it. */
  function Swept(db: Db, accounts: set<nat>, imports: set<nat>, levels: set<nat>, events: set<nat>): Db {
    var keptImports := KeptImports(db, accounts, imports);
    var keptLevels := KeptLevels(db, accounts, levels, keptImports.Keys);
    var keptEvents := KeptFacts(db.events, accounts, events);
    Db(db.accounts - accounts, keptImports, keptLevels,
       KeptReleases(db, accounts, keptLevels.Keys, keptImports.Keys),
       KeptFacts(db.openings, accounts, {}),
       keptEvents,
       KeptWithdrawals(db, accounts, db.events.Keys - keptEvents.Keys))
  }

  /** ON DELETE SET NULL (released_by_import_id), run once the import's row has gone: the UPDATE
      arm sees it and lets it through. */
  function CauseNulled(imports: set<nat>, r: Release): Release {
    if r.cause.Some? && r.cause.value !in imports then r.(cause := None) else r
  }

  /** The rows of every table that `after` no longer holds, each queued with its OLD values. */
  function Lost(before: Db, after: Db): set<Deleted> {
    (set i | i in before.levels && i !in after.levels :: LevelGone(before.levels[i]))
    + (set i | i in before.releases && i !in after.releases :: ReleaseGone(before.releases[i]))
    + (set i | i in before.openings && i !in after.openings :: OpeningGone(before.openings[i]))
    + (set i | i in before.events && i !in after.events :: EventGone(before.events[i]))
    + (set i | i in before.withdrawals && i !in after.withdrawals :: WithdrawalGone(before.withdrawals[i]))
  }

  /** The view after some rows have gone: what went is queued, the imports that went remembered. */
  function Leave(x: Txn, after: Db): Txn {
    Txn(after, x.queue + Lost(x.db, after), x.failed, x.importsDeleted + (x.db.imports.Keys - after.imports.Keys))
  }

  function Fail(x: Txn): Txn {
    x.(failed := true)
  }

  function Without(db: Db, table: Table, id: nat): Db {
    match table
    case Levels => Swept(db, {}, {}, {id}, {})
    case Events => Swept(db, {}, {}, {}, {id})
    case Releases => db.(releases := db.releases - {id})
    case Openings => db.(openings := db.openings - {id})
    case Withdrawals => db.(withdrawals := db.withdrawals - {id})
  }

  predicate Stored(db: Db, table: Table, id: nat) {
    match table
    case Levels => id in db.levels
    case Releases => id in db.releases
    case Openings => id in db.openings
    case Events => id in db.events
    case Withdrawals => id in db.withdrawals
  }

  /** A new row, refused when its id or its unique key is taken or a key it names is missing. */
  function Insert(x: Txn, s: Statement): Txn
    requires s.InsertAccount? || s.InsertImport? || s.InsertLevel? || s.InsertRelease? || s.InsertOpening?
          || s.InsertEvent? || s.InsertWithdrawal?
  {
    var db := x.db;
    match s
    case InsertAccount(id) =>
      if id in db.accounts then Fail(x) else x.(db := db.(accounts := db.accounts + {id}))
    case InsertImport(id, account) =>
      if id in db.imports || account !in db.accounts then Fail(x)
      else x.(db := db.(imports := db.imports[id := account]))
    case InsertLevel(id, l) =>
      if id in db.levels || !LevelKeyed(db, l) || HasALevel(db, l.source) then Fail(x)
      else x.(db := db.(levels := db.levels[id := l]))
    case InsertRelease(id, r) =>
      if id in db.releases || !ReleaseKeyed(db, r) || IsReleased(db, r.level) then Fail(x)
      else x.(db := db.(releases := db.releases[id := r]))
    case InsertOpening(id, f) =>
      if id in db.openings || f.account !in db.accounts then Fail(x)
      else x.(db := db.(openings := db.openings[id := f]))
    case InsertEvent(id, f) =>
      if id in db.events || f.account !in db.accounts then Fail(x) else x.(db := db.(events := db.events[id := f]))
    case InsertWithdrawal(id, w) =>
      if id in db.withdrawals || !WithdrawalKeyed(db, w) || IsWithdrawn(db, w.event) then Fail(x)
      else x.(db := db.(withdrawals := db.withdrawals[id := w]))
  }

  function Execute(x: Txn, s: Statement): Txn {
    if x.failed then x
    else match s
    case DeleteAccount(id) => Leave(x, Swept(x.db, {id}, {}, {}, {}))
    case DeleteImport(id) => Leave(x, Swept(x.db, {}, {id}, {}, {}))
    case Delete(table, id) => Leave(x, Without(x.db, table, id))
    case UpdateRelease(id, r) =>
      if id !in x.db.releases then x
      else if UpdateAdmitted(x.db.imports.Keys, x.db.releases[id], r)
      then x.(db := x.db.(releases := x.db.releases[id := r]))
      else Fail(x)
    case UpdateOther(table, id) => if Stored(x.db, table, id) then Fail(x) else x
    case Truncate(_) => Fail(x)
    case _ => Insert(x, s)
  }

  function Body(x: Txn, statements: seq<Statement>): Txn
    decreases |statements|
  {
    if statements == [] then x else Body(Execute(x, statements[0]), statements[1..])
  }

  function Start(db: Db): Txn {
    Txn(db, {}, false, {})
  }

  predicate Commits(x: Txn) {
    !x.failed && forall gone :: gone in x.queue ==> DeleteAdmitted(x.db, gone)
  }

  /** A whole transaction: its end state when it commits, the state it began from otherwise. */
  function Transact(db: Db, statements: seq<Statement>): Db {
    var x := Body(Start(db), statements);
    if Commits(x) then x.db else db
  }

  // ---------------------------------------------------------------- what a statement keeps

  /** Every row the transaction began with is still there unedited, or its deletion is queued. */
  ghost predicate Traced(start: Db, x: Txn) {
    && (forall i :: i in start.levels ==>
          (i in x.db.levels && x.db.levels[i] == start.levels[i]) || LevelGone(start.levels[i]) in x.queue)
    && (forall i :: i in start.openings ==>
          (i in x.db.openings && x.db.openings[i] == start.openings[i]) || OpeningGone(start.openings[i]) in x.queue)
    && (forall i :: i in start.events ==>
          (i in x.db.events && x.db.events[i] == start.events[i]) || EventGone(start.events[i]) in x.queue)
    && (forall i :: i in start.withdrawals ==>
          (i in x.db.withdrawals && x.db.withdrawals[i] == start.withdrawals[i])
          || WithdrawalGone(start.withdrawals[i]) in x.queue)
    && (forall i :: i in start.releases ==> ReleaseTraced(start.releases[i], i, x))
  }

  ghost predicate ReleaseTraced(before: Release, i: nat, x: Txn) {
    || (i in x.db.releases && SameRelease(before, x.db.releases[i], x.importsDeleted))
    || (exists r :: ReleaseGone(r) in x.queue && SameRelease(before, r, x.importsDeleted))
  }

  /** Unedited, except that a cause whose import was deleted may have gone. */
  predicate SameRelease(before: Release, after: Release, importsDeleted: set<nat>) {
    after == before
    || (before.cause.Some? && before.cause.value in importsDeleted && after == before.(cause := None))
  }

  ghost predicate Sound(start: Db, x: Txn) {
    Keyed(x.db) && Traced(start, x)
  }

  /** Rows only go; a release may lose a cause whose import went. */
  ghost predicate Shrinks(before: Db, after: Db) {
    && (forall i :: i in after.levels ==> i in before.levels && after.levels[i] == before.levels[i])
    && (forall i :: i in after.openings ==> i in before.openings && after.openings[i] == before.openings[i])
    && (forall i :: i in after.events ==> i in before.events && after.events[i] == before.events[i])
    && (forall i :: i in after.withdrawals ==> i in before.withdrawals && after.withdrawals[i] == before.withdrawals[i])
    && (forall i :: i in after.releases ==> (i in before.releases
          && SameRelease(before.releases[i], after.releases[i], before.imports.Keys - after.imports.Keys)))
  }

  lemma SweptShrinks(db: Db, accounts: set<nat>, imports: set<nat>, levels: set<nat>, events: set<nat>)
    requires Keyed(db)
    ensures Shrinks(db, Swept(db, accounts, imports, levels, events))
  {
  }

  lemma SweptIsKeyed(db: Db, accounts: set<nat>, imports: set<nat>, levels: set<nat>, events: set<nat>)
    requires Keyed(db)
    ensures Keyed(Swept(db, accounts, imports, levels, events))
    ensures Shrinks(db, Swept(db, accounts, imports, levels, events))
  {
    SweptShrinks(db, accounts, imports, levels, events);
  }

  /** A row that owns nothing goes alone. */
  lemma FewerLeavesAreKeyed(db: Db, after: Db)
    requires Keyed(db) && after.accounts == db.accounts && after.imports == db.imports
    requires after.levels == db.levels && after.events == db.events
    requires forall i :: i in after.releases ==> i in db.releases && after.releases[i] == db.releases[i]
    requires forall i :: i in after.openings ==> i in db.openings && after.openings[i] == db.openings[i]
    requires forall i :: i in after.withdrawals ==> i in db.withdrawals && after.withdrawals[i] == db.withdrawals[i]
    ensures Keyed(after) && Shrinks(db, after)
  {
  }

  lemma WithoutIsKeyed(db: Db, table: Table, id: nat)
    requires Keyed(db)
    ensures Keyed(Without(db, table, id)) && Shrinks(db, Without(db, table, id))
  {
    match table
    case Levels => SweptIsKeyed(db, {}, {}, {id}, {});
    case Events => SweptIsKeyed(db, {}, {}, {}, {id});
    case _ => FewerLeavesAreKeyed(db, Without(db, table, id));
  }

  /** A release that goes is queued as it was, one that stays may lose its cause: either is traced. */
  lemma LeaveTracesRelease(before: Release, i: nat, x: Txn, after: Db)
    requires ReleaseTraced(before, i, x)
    requires i in after.releases && i in x.db.releases ==>
      SameRelease(x.db.releases[i], after.releases[i], x.db.imports.Keys - after.imports.Keys)
    ensures ReleaseTraced(before, i, Leave(x, after))
  {
    var y := Leave(x, after);
    if i in x.db.releases && SameRelease(before, x.db.releases[i], x.importsDeleted) {
      if i !in after.releases {
        assert ReleaseGone(x.db.releases[i]) in y.queue;
      }
    } else {
      var r :| ReleaseGone(r) in x.queue && SameRelease(before, r, x.importsDeleted);
      assert ReleaseGone(r) in y.queue;
    }
  }

  lemma LeaveKeeps(start: Db, x: Txn, after: Db)
    requires Sound(start, x) && Keyed(after) && Shrinks(x.db, after)
    ensures Sound(start, Leave(x, after))
  {
    forall i | i in start.releases ensures ReleaseTraced(start.releases[i], i, Leave(x, after)) {
      LeaveTracesRelease(start.releases[i], i, x, after);
    }
  }

  /** Rows only come, and none that was there is touched. */
  ghost predicate Grows(before: Db, after: Db) {
    && (forall i :: i in before.levels ==> i in after.levels && after.levels[i] == before.levels[i])
    && (forall i :: i in before.releases ==> i in after.releases && after.releases[i] == before.releases[i])
    && (forall i :: i in before.openings ==> i in after.openings && after.openings[i] == before.openings[i])
    && (forall i :: i in before.events ==> i in after.events && after.events[i] == before.events[i])
    && (forall i :: i in before.withdrawals ==> i in after.withdrawals && after.withdrawals[i] == before.withdrawals[i])
  }

  lemma MoreParentsKeepTheKeys(before: Db, after: Db)
    requires Keyed(before) && before.accounts <= after.accounts
    requires forall i :: i in before.imports ==> i in after.imports && after.imports[i] == before.imports[i]
    requires forall i :: i in after.imports ==> after.imports[i] in after.accounts
    requires after.levels == before.levels && after.releases == before.releases && after.openings == before.openings
    requires after.events == before.events && after.withdrawals == before.withdrawals
    ensures Keyed(after)
  {
  }

  lemma MoreRowsKeepTheKeys(before: Db, after: Db)
    requires Keyed(before) && Grows(before, after)
    requires after.accounts == before.accounts && after.imports == before.imports
    requires forall i :: i in after.levels && i !in before.levels ==> LevelKeyed(after, after.levels[i])
    requires forall i :: i in after.releases && i !in before.releases ==> ReleaseKeyed(after, after.releases[i])
    requires forall i :: i in after.openings && i !in before.openings ==> after.openings[i].account in after.accounts
    requires forall i :: i in after.events && i !in before.events ==> after.events[i].account in after.accounts
    requires forall i :: i in after.withdrawals && i !in before.withdrawals ==>
      WithdrawalKeyed(after, after.withdrawals[i])
    ensures Keyed(after)
  {
  }

  lemma InsertParentGrows(x: Txn, s: Statement)
    requires Keyed(x.db) && (s.InsertAccount? || s.InsertImport?)
    ensures Keyed(Insert(x, s).db) && Grows(x.db, Insert(x, s).db)
  {
    MoreParentsKeepTheKeys(x.db, Insert(x, s).db);
  }

  lemma InsertAnchorGrows(x: Txn, s: Statement)
    requires Keyed(x.db) && (s.InsertLevel? || s.InsertRelease?)
    ensures Keyed(Insert(x, s).db) && Grows(x.db, Insert(x, s).db)
  {
    MoreRowsKeepTheKeys(x.db, Insert(x, s).db);
  }

  lemma InsertFactGrows(x: Txn, s: Statement)
    requires Keyed(x.db) && (s.InsertOpening? || s.InsertEvent?)
    ensures Keyed(Insert(x, s).db) && Grows(x.db, Insert(x, s).db)
  {
    MoreRowsKeepTheKeys(x.db, Insert(x, s).db);
  }

  lemma InsertWithdrawalGrows(x: Txn, s: Statement)
    requires Keyed(x.db) && s.InsertWithdrawal?
    ensures Keyed(Insert(x, s).db) && Grows(x.db, Insert(x, s).db)
  {
    MoreRowsKeepTheKeys(x.db, Insert(x, s).db);
  }

  lemma InsertGrows(x: Txn, s: Statement)
    requires Keyed(x.db)
    requires s.InsertAccount? || s.InsertImport? || s.InsertLevel? || s.InsertRelease? || s.InsertOpening?
          || s.InsertEvent? || s.InsertWithdrawal?
    ensures Keyed(Insert(x, s).db) && Grows(x.db, Insert(x, s).db)
  {
    if s.InsertAccount? || s.InsertImport? {
      InsertParentGrows(x, s);
    } else if s.InsertLevel? || s.InsertRelease? {
      InsertAnchorGrows(x, s);
    } else if s.InsertWithdrawal? {
      InsertWithdrawalGrows(x, s);
    } else {
      InsertFactGrows(x, s);
    }
  }

  lemma GrowKeeps(start: Db, x: Txn, y: Txn)
    requires Sound(start, x) && Keyed(y.db) && Grows(x.db, y.db)
    requires y.queue == x.queue && y.importsDeleted == x.importsDeleted
    ensures Sound(start, y)
  {
    forall i | i in start.releases
      ensures ReleaseTraced(start.releases[i], i, y)
    {
      assert ReleaseTraced(start.releases[i], i, x);
    }
  }

  /** While the keys hold no release names a missing import, so the arm admits no written UPDATE:
      its one transition is the key's own action. */
  lemma NoWrittenUpdatePasses(db: Db, id: nat, after: Release)
    requires Keyed(db) && id in db.releases
    ensures !UpdateAdmitted(db.imports.Keys, db.releases[id], after)
  {
    assert ReleaseKeyed(db, db.releases[id]);
  }

  lemma FailKeeps(start: Db, x: Txn)
    requires Sound(start, x)
    ensures Sound(start, Fail(x))
  {
    GrowKeeps(start, x, Fail(x));
  }

  lemma SweepKeeps(start: Db, x: Txn, accounts: set<nat>, imports: set<nat>)
    requires Sound(start, x)
    ensures Sound(start, Leave(x, Swept(x.db, accounts, imports, {}, {})))
  {
    SweptIsKeyed(x.db, accounts, imports, {}, {});
    LeaveKeeps(start, x, Swept(x.db, accounts, imports, {}, {}));
  }

  lemma InsertKeeps(start: Db, x: Txn, s: Statement)
    requires Sound(start, x)
    requires s.InsertAccount? || s.InsertImport? || s.InsertLevel? || s.InsertRelease? || s.InsertOpening?
          || s.InsertEvent? || s.InsertWithdrawal?
    ensures Sound(start, Insert(x, s))
  {
    InsertGrows(x, s);
    GrowKeeps(start, x, Insert(x, s));
  }

  lemma ExecuteKeeps(start: Db, x: Txn, s: Statement)
    requires Sound(start, x)
    ensures Sound(start, Execute(x, s))
  {
    FailKeeps(start, x);
    match s
    case DeleteAccount(id) => SweepKeeps(start, x, {id}, {});
    case DeleteImport(id) => SweepKeeps(start, x, {}, {id});
    case Delete(table, id) =>
      WithoutIsKeyed(x.db, table, id);
      LeaveKeeps(start, x, Without(x.db, table, id));
    case UpdateRelease(id, r) => if id in x.db.releases { NoWrittenUpdatePasses(x.db, id, r); }
    case UpdateOther(_, _) =>
    case Truncate(_) =>
    case _ => InsertKeeps(start, x, s);
  }

  lemma {:induction false} BodyKeeps(start: Db, x: Txn, statements: seq<Statement>)
    requires Sound(start, x)
    ensures Sound(start, Body(x, statements))
    decreases |statements|
  {
    if statements == [] {
    } else {
      ExecuteKeeps(start, x, statements[0]);
      BodyKeeps(start, Execute(x, statements[0]), statements[1..]);
    }
  }

  // ---------------------------------------------------------------- one committed transaction

  ghost predicate KeptFact(before: map<nat, Fact>, after: map<nat, Fact>, i: nat)
    requires i in before
  {
    i in after && after[i] == before[i]
  }

  ghost predicate KeptLevel(before: Db, after: Db, i: nat)
    requires i in before.levels
  {
    i in after.levels && after.levels[i] == before.levels[i]
  }

  ghost predicate KeptRelease(before: Db, after: Db, i: nat, importsDeleted: set<nat>)
    requires i in before.releases
  {
    i in after.releases && SameRelease(before.releases[i], after.releases[i], importsDeleted)
  }

  ghost predicate KeptWithdrawal(before: Db, after: Db, i: nat)
    requires i in before.withdrawals
  {
    i in after.withdrawals && after.withdrawals[i] == before.withdrawals[i]
  }

  /** The imports a transaction's statements deleted, when it committed. */
  function ImportsDeleted(db: Db, statements: seq<Statement>): set<nat> {
    var x := Body(Start(db), statements);
    if Commits(x) then x.importsDeleted else {}
  }

  /** Each row committed before is unedited after, or its account or its second owner is gone at commit. */
  ghost predicate Explained(before: Db, after: Db, importsDeleted: set<nat>) {
    && (forall i :: i in before.levels ==>
          KeptLevel(before, after, i) || before.levels[i].account !in after.accounts
          || (before.levels[i].source.Some? && before.levels[i].source.value !in after.imports))
    && (forall i :: i in before.openings ==>
          KeptFact(before.openings, after.openings, i) || before.openings[i].account !in after.accounts)
    && (forall i :: i in before.events ==>
          KeptFact(before.events, after.events, i) || before.events[i].account !in after.accounts)
    && (forall i :: i in before.withdrawals ==>
          KeptWithdrawal(before, after, i) || before.withdrawals[i].account !in after.accounts
          || before.withdrawals[i].event !in after.events)
    && (forall i :: i in before.releases ==>
          KeptRelease(before, after, i, importsDeleted) || before.releases[i].account !in after.accounts
          || before.releases[i].level !in after.levels)
  }

  /** What every statement kept, once the queued checks pass, is the explanation. */
  lemma TracedIsExplained(start: Db, x: Txn)
    requires Sound(start, x) && Commits(x)
    ensures Explained(start, x.db, x.importsDeleted)
  {
    forall i | i in start.releases
      ensures KeptRelease(start, x.db, i, x.importsDeleted) || start.releases[i].account !in x.db.accounts
           || start.releases[i].level !in x.db.levels
    {
      assert ReleaseTraced(start.releases[i], i, x);
    }
  }

  lemma StartIsSound(db: Db)
    requires Keyed(db)
    ensures Sound(db, Start(db))
  {
    assert forall i :: i in db.releases ==> ReleaseTraced(db.releases[i], i, Start(db));
  }

  lemma NothingChangedIsExplained(db: Db)
    ensures Explained(db, db, {})
  {
  }

  /** One committed transaction, with its cascades and any id deleted and put back: each row
      committed before is unedited, or an owner of it is gone at commit. */
  lemma CommitExplainsEveryLoss(db: Db, statements: seq<Statement>)
    requires Keyed(db)
    ensures Keyed(Transact(db, statements))
    ensures Explained(db, Transact(db, statements), ImportsDeleted(db, statements))
  {
    StartIsSound(db);
    BodyKeeps(db, Start(db), statements);
    var x := Body(Start(db), statements);
    if Commits(x) { TracedIsExplained(db, x); } else { NothingChangedIsExplained(db); }
  }

  /** An import counts as deleted only when a statement named it, or deleted an account. */
  lemma {:induction false} ADeletedImportWasNamed(x: Txn, statements: seq<Statement>, i: nat)
    ensures i in Body(x, statements).importsDeleted ==>
      i in x.importsDeleted || DeleteImport(i) in statements || exists a :: DeleteAccount(a) in statements
    decreases |statements|
  {
    if statements == [] {
    } else {
      var s := statements[0];
      ADeletedImportWasNamed(Execute(x, s), statements[1..], i);
      StatementDeletesNamed(x, s, i);
      if s.DeleteAccount? { assert DeleteAccount(s.id) in statements; }
      assert forall t :: t in statements[1..] ==> t in statements;
    }
  }

  lemma StatementDeletesNamed(x: Txn, s: Statement, i: nat)
    ensures i in Execute(x, s).importsDeleted && i !in x.importsDeleted ==> s == DeleteImport(i) || s.DeleteAccount?
  {
    match s
    case DeleteAccount(_) =>
    case DeleteImport(id) =>
      assert forall k :: k in KeptImports(x.db, {}, {id}) <==> k in x.db.imports && k != id;
    case Delete(table, id) => WithoutKeepsImports(x.db, table, id);
    case UpdateRelease(_, _) =>
    case UpdateOther(_, _) =>
    case Truncate(_) =>
    case _ =>
  }

  lemma WithoutKeepsImports(db: Db, table: Table, id: nat)
    ensures Without(db, table, id).imports == db.imports
  {
    assert KeptImports(db, {}, {}) == db.imports;
  }

  /** Through the levels, a release is lost only with its account or its level's import, and a
      loan withdrawal only with its account. */
  lemma LossesTraceToAnOwner(db: Db, statements: seq<Statement>)
    requires Keyed(db)
    ensures forall i :: i in db.releases ==>
      KeptRelease(db, Transact(db, statements), i, ImportsDeleted(db, statements))
      || OwnerGone(Transact(db, statements), db.releases[i].account, db.levels[db.releases[i].level].source)
    ensures forall i :: i in db.withdrawals ==>
      KeptWithdrawal(db, Transact(db, statements), i)
      || db.withdrawals[i].account !in Transact(db, statements).accounts
  {
    CommitExplainsEveryLoss(db, statements);
    var after := Transact(db, statements);
    forall i | i in db.releases
      ensures KeptRelease(db, after, i, ImportsDeleted(db, statements))
           || OwnerGone(after, db.releases[i].account, db.levels[db.releases[i].level].source)
    {
      assert ReleaseKeyed(db, db.releases[i]);
      assert KeptLevel(db, after, db.releases[i].level)
          || OwnerGone(after, db.releases[i].account, db.levels[db.releases[i].level].source);
    }
    forall i | i in db.withdrawals
      ensures KeptWithdrawal(db, after, i) || db.withdrawals[i].account !in after.accounts
    {
      assert WithdrawalKeyed(db, db.withdrawals[i]);
      assert KeptFact(db.events, after.events, db.withdrawals[i].event) || db.withdrawals[i].account !in after.accounts;
    }
  }

  predicate OwnerGone(db: Db, account: nat, source: Option<nat>) {
    account !in db.accounts || (source.Some? && source.value !in db.imports)
  }

  /** A level is as it was while its account and the import it names stand at commit; openings, loan
      statements and withdrawals while their account does. */
  lemma WhileItsOwnersStandARowStands(db: Db, statements: seq<Statement>, i: nat)
    requires Keyed(db)
    ensures var after := Transact(db, statements);
      && (i in db.levels && db.levels[i].account in after.accounts
          && (db.levels[i].source == None || db.levels[i].source.value in after.imports) ==>
            i in after.levels && after.levels[i] == db.levels[i])
      && (i in db.openings && db.openings[i].account in after.accounts ==>
            i in after.openings && after.openings[i] == db.openings[i])
      && (i in db.events && db.events[i].account in after.accounts ==>
            i in after.events && after.events[i] == db.events[i])
      && (i in db.withdrawals && db.withdrawals[i].account in after.accounts ==>
            i in after.withdrawals && after.withdrawals[i] == db.withdrawals[i])
  {
    CommitExplainsEveryLoss(db, statements);
    LossesTraceToAnOwner(db, statements);
  }

  /** A release is there while its account and its level's import stand at commit, and is as it was but
      for a cause whose import a statement deleted by name or with its account. */
  lemma ACauseIsLostOnlyWithItsImport(db: Db, statements: seq<Statement>, i: nat)
    requires Keyed(db) && i in db.releases
    requires var source, after := db.levels[db.releases[i].level].source, Transact(db, statements);
      db.releases[i].account in after.accounts && (source.Some? ==> source.value in after.imports)
    ensures var before, after := db.releases[i], Transact(db, statements);
      && i in after.releases
      && (after.releases[i] == before
          || (before.cause.Some? && after.releases[i] == Release(before.account, before.level, None, before.facts)
              && (DeleteImport(before.cause.value) in statements || exists a :: DeleteAccount(a) in statements)))
  {
    LossesTraceToAnOwner(db, statements);
    assert ReleaseKeyed(db, db.releases[i]);
    if db.releases[i].cause.Some? { ADeletedImportWasNamed(Start(db), statements, db.releases[i].cause.value); }
  }

  // ---------------------------------------------------------------- every run

  function After(db: Db, transactions: seq<seq<Statement>>): Db
    decreases |transactions|
  {
    if transactions == [] then db else After(Transact(db, transactions[0]), transactions[1..])
  }

  /** A run is its transactions one after another. */
  lemma {:induction false} ARunIsItsTransactionsInTurn(db: Db, transactions: seq<seq<Statement>>, last: seq<Statement>)
    ensures After(db, []) == db
    ensures After(db, transactions + [last]) == Transact(After(db, transactions), last)
    decreases |transactions|
  {
    if transactions == [] {
      assert ([last] + [])[1..] == [];
    } else {
      assert (transactions + [last])[1..] == transactions[1..] + [last];
      ARunIsItsTransactionsInTurn(Transact(db, transactions[0]), transactions[1..], last);
    }
  }

  function ImportsDeletedOver(db: Db, transactions: seq<seq<Statement>>): set<nat>
    decreases |transactions|
  {
    if transactions == [] then {}
    else ImportsDeleted(db, transactions[0]) + ImportsDeletedOver(Transact(db, transactions[0]), transactions[1..])
  }

  /** An import counts as deleted over a run only when one of its transactions named it, or deleted an
      account. */
  lemma {:induction false} AnImportDeletedOverARunWasNamed(db: Db, transactions: seq<seq<Statement>>, i: nat)
    requires i in ImportsDeletedOver(db, transactions)
    ensures exists t :: t in transactions && (DeleteImport(i) in t || exists a :: DeleteAccount(a) in t)
    decreases |transactions|
  {
    if transactions == [] {
    } else if i in ImportsDeleted(db, transactions[0]) {
      ADeletedImportWasNamed(Start(db), transactions[0], i);
      assert transactions[0] in transactions;
    } else {
      AnImportDeletedOverARunWasNamed(Transact(db, transactions[0]), transactions[1..], i);
      assert forall t :: t in transactions[1..] ==> t in transactions;
    }
  }

  /** At every commit of the run the account stands, and so does the import when one is named. */
  ghost predicate Standing(db: Db, transactions: seq<seq<Statement>>, account: nat, source: Option<nat>)
    decreases |transactions|
  {
    && !OwnerGone(db, account, source)
    && (transactions != [] ==> Standing(Transact(db, transactions[0]), transactions[1..], account, source))
  }

  /** Over any run, a level and its release outlive everything but their account and their import. */
  lemma {:induction false} LevelsAndReleasesOutlive(db: Db, transactions: seq<seq<Statement>>, i: nat)
    requires Keyed(db) && i in db.levels
    requires Standing(db, transactions, db.levels[i].account, db.levels[i].source)
    ensures KeptLevel(db, After(db, transactions), i)
    ensures forall r :: r in db.releases && db.releases[r].level == i ==>
      KeptRelease(db, After(db, transactions), r, ImportsDeletedOver(db, transactions))
    decreases |transactions|
  {
    if transactions == [] {
    } else {
      var next := Transact(db, transactions[0]);
      CommitExplainsEveryLoss(db, transactions[0]);
      assert KeptLevel(db, next, i);
      LevelsAndReleasesOutlive(next, transactions[1..], i);
      forall r | r in db.releases && db.releases[r].level == i
        ensures KeptRelease(db, After(db, transactions), r, ImportsDeletedOver(db, transactions))
      {
        assert ReleaseKeyed(db, db.releases[r]);
        assert KeptRelease(db, next, r, ImportsDeleted(db, transactions[0]));
        assert KeptRelease(next, After(db, transactions), r, ImportsDeletedOver(next, transactions[1..]));
      }
    }
  }

  /** Openings, loan statements and their withdrawals outlive everything but their account. */
  lemma {:induction false} TheRestOutlive(db: Db, transactions: seq<seq<Statement>>, account: nat)
    requires Keyed(db) && Standing(db, transactions, account, None)
    ensures forall i :: i in db.openings && db.openings[i].account == account ==>
      KeptFact(db.openings, After(db, transactions).openings, i)
    ensures forall i :: i in db.events && db.events[i].account == account ==>
      KeptFact(db.events, After(db, transactions).events, i)
    ensures forall i :: i in db.withdrawals && db.withdrawals[i].account == account ==>
      KeptWithdrawal(db, After(db, transactions), i)
    decreases |transactions|
  {
    if transactions == [] {
    } else {
      var next := Transact(db, transactions[0]);
      CommitExplainsEveryLoss(db, transactions[0]);
      LossesTraceToAnOwner(db, transactions[0]);
      TheRestOutlive(next, transactions[1..], account);
      forall i | i in db.withdrawals && db.withdrawals[i].account == account
        ensures KeptWithdrawal(db, After(db, transactions), i)
      {
        assert KeptWithdrawal(db, next, i);
      }
    }
  }

  // ---------------------------------------------------------------- what is let through, and what is not

  /** The key's own SET NULL is the transition the UPDATE arm admits. */
  lemma CascadePassesTheArm(db: Db, accounts: set<nat>, imports: set<nat>, i: nat)
    requires Keyed(db)
    requires i in Swept(db, accounts, imports, {}, {}).releases
    ensures var after := Swept(db, accounts, imports, {}, {});
      after.releases[i] == db.releases[i] || UpdateAdmitted(after.imports.Keys, db.releases[i], after.releases[i])
  {
  }

  /** Disposing of an import is let through, with exactly what it owns. */
  lemma ImportDisposalCommits(db: Db, id: nat)
    requires Keyed(db)
    ensures Transact(db, [DeleteImport(id)]) == Swept(db, {}, {id}, {}, {})
  {
    BodyOfOne(db, DeleteImport(id));
    forall gone | gone in Lost(db, Swept(db, {}, {id}, {}, {}))
      ensures DeleteAdmitted(Swept(db, {}, {id}, {}, {}), gone)
    {
      WhatGoesWithAnImport(db, id, gone);
    }
  }

  lemma WhatGoesWithAnImport(db: Db, id: nat, gone: Deleted)
    requires Keyed(db) && gone in Lost(db, Swept(db, {}, {id}, {}, {}))
    ensures DeleteAdmitted(Swept(db, {}, {id}, {}, {}), gone)
  {
    var end := Swept(db, {}, {id}, {}, {});
    match gone
    case LevelGone(l) =>
      assert l.source.Some? && l.source.value !in end.imports;
    case ReleaseGone(r) =>
      assert r.level !in end.levels;
    case OpeningGone(f) => assert false;
    case EventGone(f) => assert false;
    case WithdrawalGone(w) => assert false;
  }

  /** A database without one account: its rows filtered table by table, no cascade followed. */
  function Purged(db: Db, id: nat): Db {
    Db(db.accounts - {id},
       map i | i in db.imports && db.imports[i] != id :: db.imports[i],
       map i | i in db.levels && db.levels[i].account != id :: db.levels[i],
       map i | i in db.releases && db.releases[i].account != id :: db.releases[i],
       map i | i in db.openings && db.openings[i].account != id :: db.openings[i],
       map i | i in db.events && db.events[i].account != id :: db.events[i],
       map i | i in db.withdrawals && db.withdrawals[i].account != id :: db.withdrawals[i])
  }

  /** The cascade from an account reaches its own rows and no others. */
  lemma AccountCascadeIsExact(db: Db, id: nat)
    requires Keyed(db)
    ensures Swept(db, {id}, {}, {}, {}) == Purged(db, id)
  {
    var purged := Purged(db, id);
    assert KeptImports(db, {id}, {}) == purged.imports;
    assert KeptFacts(db.events, {id}, {}) == purged.events;
    assert KeptFacts(db.openings, {id}, {}) == purged.openings;
    LevelsOfOthersStay(db, id);
    ReleasesOfOthersStay(db, id);
    WithdrawalsOfOthersStay(db, id);
  }

  lemma LevelsOfOthersStay(db: Db, id: nat)
    requires Keyed(db)
    ensures KeptLevels(db, {id}, {}, Purged(db, id).imports.Keys) == Purged(db, id).levels
  {
    assert forall i :: i in db.levels ==> LevelKeyed(db, db.levels[i]);
  }

  lemma ReleasesOfOthersStay(db: Db, id: nat)
    requires Keyed(db)
    ensures KeptReleases(db, {id}, Purged(db, id).levels.Keys, Purged(db, id).imports.Keys) == Purged(db, id).releases
  {
    assert forall i :: i in db.releases ==> ReleaseKeyed(db, db.releases[i]);
  }

  lemma WithdrawalsOfOthersStay(db: Db, id: nat)
    requires Keyed(db)
    ensures KeptWithdrawals(db, {id}, db.events.Keys - Purged(db, id).events.Keys) == Purged(db, id).withdrawals
  {
    assert forall i :: i in db.withdrawals ==> WithdrawalKeyed(db, db.withdrawals[i]);
  }

  /** Nothing an account's disposal took still has its account. */
  lemma WhatGoesWithAnAccount(db: Db, id: nat, gone: Deleted)
    requires gone in Lost(db, Purged(db, id))
    ensures DeleteAdmitted(Purged(db, id), gone)
  {
    match gone
    case LevelGone(l) => assert l.account == id;
    case ReleaseGone(r) => assert r.account == id;
    case OpeningGone(f) => assert f.account == id;
    case EventGone(f) => assert f.account == id;
    case WithdrawalGone(w) => assert w.account == id;
  }

  /** Disposing of an account is let through, with its history and nothing else. */
  lemma AccountDisposalCommits(db: Db, id: nat)
    requires Keyed(db)
    ensures Transact(db, [DeleteAccount(id)]) == Purged(db, id)
  {
    BodyOfOne(db, DeleteAccount(id));
    AccountCascadeIsExact(db, id);
    var x := Execute(Start(db), DeleteAccount(id));
    assert x.db == Purged(db, id) && x.queue == Lost(db, Purged(db, id)) && !x.failed;
    forall gone | gone in x.queue ensures DeleteAdmitted(x.db, gone) {
      WhatGoesWithAnAccount(db, id, gone);
    }
  }

  lemma BodyOfOne(db: Db, s: Statement)
    ensures Body(Start(db), [s]) == Execute(Start(db), s)
  {
    assert Body(Execute(Start(db), s), [s][1..]) == Execute(Start(db), s);
  }

  /** History with no second owner: a level the owner declared, an opening, a loan statement. */
  ghost predicate HasHistoryOfItsOwn(db: Db, account: nat) {
    || (exists i :: i in db.levels && db.levels[i].account == account && db.levels[i].source.None?)
    || (exists i :: i in db.openings && db.openings[i].account == account)
    || (exists i :: i in db.events && db.events[i].account == account)
  }

  /** Deleting an account and putting its id back is refused exactly when it has history of its
      own.  A bank level goes with the import its account's deletion took, so an account whose
      only history is bank levels and their releases is not protected from it. */
  lemma DeleteAndRecreateIsRefused(db: Db, id: nat)
    requires Keyed(db) && id in db.accounts
    ensures Commits(Body(Start(db), [DeleteAccount(id), InsertAccount(id)])) <==> !HasHistoryOfItsOwn(db, id)
  {
    AccountCascadeIsExact(db, id);
    var first := Execute(Start(db), DeleteAccount(id));
    var x := Execute(first, InsertAccount(id));
    assert [DeleteAccount(id), InsertAccount(id)][1..] == [InsertAccount(id)];
    assert Body(x, [InsertAccount(id)][1..]) == x;
    assert Body(first, [InsertAccount(id)]) == x;
    assert x.queue == Lost(db, Purged(db, id));
    if HasHistoryOfItsOwn(db, id) {
      OwnHistoryIsRefused(db, id, x.db);
    } else {
      forall gone | gone in x.queue ensures DeleteAdmitted(x.db, gone) {
        BorrowedHistoryIsAdmitted(db, id, x.db, gone);
      }
    }
  }

  /** Account 1 with one bank level of import 2, and no opening: no writer of the application makes
      it, since creating an account writes its opening. */
  const BANK_ONLY := Db({1}, map[2 := 1], map[3 := Level(1, Some(2), 0)], map[], map[], map[], map[])

  /** It is deleted and put back in one transaction that commits, its level lost and itself standing. */
  lemma ABankOnlyAccountIsNotProtected()
    ensures Keyed(BANK_ONLY)
    ensures var after := Transact(BANK_ONLY, [DeleteAccount(1), InsertAccount(1)]);
      1 in after.accounts && 3 !in after.levels
  {
    var db := BANK_ONLY;
    assert Keyed(db) && !HasHistoryOfItsOwn(db, 1);
    DeleteAndRecreateIsRefused(db, 1);
    var first := Execute(Start(db), DeleteAccount(1));
    var x := Execute(first, InsertAccount(1));
    AccountCascadeIsExact(db, 1);
    BodyAppends(Start(db), [DeleteAccount(1)], [InsertAccount(1)]);
    BodyOfOne(db, DeleteAccount(1));
    assert [DeleteAccount(1)] + [InsertAccount(1)] == [DeleteAccount(1), InsertAccount(1)];
    assert Body(first, [InsertAccount(1)]) == x by { assert Body(x, [InsertAccount(1)][1..]) == x; }
  }

  lemma OwnHistoryIsRefused(db: Db, id: nat, end: Db)
    requires id in end.accounts && HasHistoryOfItsOwn(db, id)
    ensures exists gone :: gone in Lost(db, Purged(db, id)) && !DeleteAdmitted(end, gone)
  {
    if i :| i in db.levels && db.levels[i].account == id && db.levels[i].source.None? {
      assert LevelGone(db.levels[i]) in Lost(db, Purged(db, id));
    } else if i :| i in db.openings && db.openings[i].account == id {
      assert OpeningGone(db.openings[i]) in Lost(db, Purged(db, id));
    } else {
      var i :| i in db.events && db.events[i].account == id;
      assert EventGone(db.events[i]) in Lost(db, Purged(db, id));
    }
  }

  lemma BorrowedHistoryIsAdmitted(db: Db, id: nat, end: Db, gone: Deleted)
    requires Keyed(db) && !HasHistoryOfItsOwn(db, id)
    requires end.imports == Purged(db, id).imports && end.levels == Purged(db, id).levels
    requires gone in Lost(db, Purged(db, id))
    ensures DeleteAdmitted(end, gone)
  {
    match gone
    case LevelGone(l) =>
      var i :| i in db.levels && db.levels[i] == l && l.account == id;
      assert LevelKeyed(db, l);
    case ReleaseGone(r) =>
      var i :| i in db.releases && db.releases[i] == r && r.account == id;
      assert ReleaseKeyed(db, r);
    case WithdrawalGone(w) =>
      assert false;
    case _ => assert false;
  }

  lemma {:induction false} AFailureIsFinal(x: Txn, statements: seq<Statement>)
    requires x.failed
    ensures Body(x, statements) == x
    decreases |statements|
  {
    if statements == [] {
    } else {
      AFailureIsFinal(x, statements[1..]);
    }
  }

  /** A transaction that truncates one of the tables stores nothing, whatever else it does. */
  lemma {:induction false} TruncateStoresNothing(db: Db, before: seq<Statement>, table: Table, after: seq<Statement>)
    ensures Transact(db, before + [Truncate(table)] + after) == db
  {
    ARaiseStoresNothing(db, before, Truncate(table), after);
  }

  /** A statement that raises, wherever in its transaction it comes, makes the transaction store nothing. */
  lemma ARaiseStoresNothing(db: Db, before: seq<Statement>, s: Statement, after: seq<Statement>)
    requires Execute(Body(Start(db), before), s).failed
    ensures Transact(db, before + [s] + after) == db
  {
    BodyAppends(Start(db), before, [s] + after);
    assert before + [s] + after == before + ([s] + after);
    assert ([s] + after)[1..] == after;
    AFailureIsFinal(Execute(Body(Start(db), before), s), after);
  }

  /** A transaction with an UPDATE of a row of the five tables, stored when the statement runs,
      stores nothing, whatever else it does and whatever the new values. */
  lemma AnUpdateStoresNothing(db: Db, before: seq<Statement>, s: Statement, after: seq<Statement>)
    requires Keyed(db)
    requires var now := Body(Start(db), before).db;
      match s
      case UpdateRelease(id, _) => id in now.releases
      case UpdateOther(Levels, id) => id in now.levels
      case UpdateOther(Releases, id) => id in now.releases
      case UpdateOther(Openings, id) => id in now.openings
      case UpdateOther(Events, id) => id in now.events
      case UpdateOther(Withdrawals, id) => id in now.withdrawals
      case _ => false
    ensures Transact(db, before + [s] + after) == db
  {
    StartIsSound(db);
    BodyKeeps(db, Start(db), before);
    if s.UpdateRelease? { NoWrittenUpdatePasses(Body(Start(db), before).db, s.id, s.release); }
    ARaiseStoresNothing(db, before, s, after);
  }

  /** On any view, an UPDATE of a stored release passes exactly when it takes off a cause whose import
      has gone and touches no other column; it raises otherwise. */
  lemma AnUpdatePassesExactlyWhen(x: Txn, id: nat, r: Release)
    requires !x.failed && id in x.db.releases
    ensures var was, next := x.db.releases[id], Execute(x, UpdateRelease(id, r));
      if was.cause.Some? && was.cause.value !in x.db.imports && r == Release(was.account, was.level, None, was.facts)
      then next == x.(db := x.db.(releases := x.db.releases[id := r]))
      else next == x.(failed := true)
  {
  }

  /** A transaction with an INSERT refused for a taken id, a row it names that is missing or of another
      account, or a unique key, as things stand when the statement runs, stores nothing. */
  lemma ARefusedInsertStoresNothing(db: Db, before: seq<Statement>, s: Statement, after: seq<Statement>)
    requires var now := Body(Start(db), before).db;
      match s
      case InsertAccount(id) => id in now.accounts
      case InsertImport(id, account) => id in now.imports || account !in now.accounts
      case InsertOpening(id, f) => id in now.openings || f.account !in now.accounts
      case InsertEvent(id, f) => id in now.events || f.account !in now.accounts
      case InsertLevel(id, l) =>
        || id in now.levels || l.account !in now.accounts
        || (l.source.Some? && (l.source.value !in now.imports || now.imports[l.source.value] != l.account
                               || exists i :: i in now.levels && now.levels[i].source == l.source))
      case InsertRelease(id, r) =>
        || id in now.releases || r.account !in now.accounts
        || r.level !in now.levels || now.levels[r.level].account != r.account
        || (r.cause.Some? && (r.cause.value !in now.imports || now.imports[r.cause.value] != r.account))
        || exists i :: i in now.releases && now.releases[i].level == r.level
      case InsertWithdrawal(id, w) =>
        || id in now.withdrawals || w.account !in now.accounts
        || w.event !in now.events || now.events[w.event].account != w.account
        || exists i :: i in now.withdrawals && now.withdrawals[i].event == w.event
      case _ => false
    ensures Transact(db, before + [s] + after) == db
  {
    ARaiseStoresNothing(db, before, s, after);
  }

  /** An UPDATE that finds no row does nothing. */
  lemma AnUpdateOfNothingPasses(x: Txn, s: Statement)
    requires match s
      case UpdateRelease(id, _) => id !in x.db.releases
      case UpdateOther(Levels, id) => id !in x.db.levels
      case UpdateOther(Releases, id) => id !in x.db.releases
      case UpdateOther(Openings, id) => id !in x.db.openings
      case UpdateOther(Events, id) => id !in x.db.events
      case UpdateOther(Withdrawals, id) => id !in x.db.withdrawals
      case _ => false
    ensures Execute(x, s) == x
  {
  }

  lemma APickedOffLevelStays(db: Db, id: nat)
    requires Keyed(db)
    ensures Transact(db, [Delete(Levels, id)]) == db
  {
    BodyOfOne(db, Delete(Levels, id));
    if id in db.levels {
      assert LevelKeyed(db, db.levels[id]);
      var x := Execute(Start(db), Delete(Levels, id));
      assert KeptImports(db, {}, {}) == db.imports;
      assert LevelGone(db.levels[id]) in x.queue && !DeleteAdmitted(x.db, LevelGone(db.levels[id]));
    } else {
      SweptOfNothing(db, {id}, {});
    }
  }

  lemma APickedOffEventStays(db: Db, id: nat)
    requires Keyed(db)
    ensures Transact(db, [Delete(Events, id)]) == db
  {
    BodyOfOne(db, Delete(Events, id));
    if id in db.events {
      var x := Execute(Start(db), Delete(Events, id));
      assert EventGone(db.events[id]) in x.queue && !DeleteAdmitted(x.db, EventGone(db.events[id]));
    } else {
      SweptOfNothing(db, {}, {id});
    }
  }

  lemma APickedOffLeafStays(db: Db, table: Table, id: nat)
    requires Keyed(db) && (table.Releases? || table.Openings? || table.Withdrawals?)
    ensures Transact(db, [Delete(table, id)]) == db
  {
    BodyOfOne(db, Delete(table, id));
    var x := Execute(Start(db), Delete(table, id));
    if !Stored(db, table, id) {
      assert x.db == db;
    } else if table.Releases? {
      assert ReleaseKeyed(db, db.releases[id]);
      assert ReleaseGone(db.releases[id]) in x.queue && !DeleteAdmitted(x.db, ReleaseGone(db.releases[id]));
    } else if table.Openings? {
      assert OpeningGone(db.openings[id]) in x.queue && !DeleteAdmitted(x.db, OpeningGone(db.openings[id]));
    } else {
      assert WithdrawalKeyed(db, db.withdrawals[id]);
      assert WithdrawalGone(db.withdrawals[id]) in x.queue && !DeleteAdmitted(x.db, WithdrawalGone(db.withdrawals[id]));
    }
  }

  /** A row of any of the five tables picked off while its owners stand is there after the commit. */
  lemma ARowPickedOffStays(db: Db, table: Table, id: nat)
    requires Keyed(db)
    ensures Transact(db, [Delete(table, id)]) == db
  {
    match table
    case Levels => APickedOffLevelStays(db, id);
    case Events => APickedOffEventStays(db, id);
    case _ => APickedOffLeafStays(db, table, id);
  }

  lemma SweptOfNothing(db: Db, levels: set<nat>, events: set<nat>)
    requires Keyed(db) && levels !! db.levels.Keys && events !! db.events.Keys
    ensures Swept(db, {}, {}, levels, events) == db
  {
    var swept := Swept(db, {}, {}, levels, events);
    assert KeptImports(db, {}, {}) == db.imports;
    assert forall i :: i in db.levels ==> LevelKeyed(db, db.levels[i]);
    assert swept.levels == db.levels;
    assert forall i :: i in db.releases ==> ReleaseKeyed(db, db.releases[i]);
    assert swept.releases == db.releases && swept.openings == db.openings && swept.events == db.events;
    assert swept.withdrawals == db.withdrawals && swept.accounts == db.accounts;
  }

  /** An import's deletion, row by row: its levels go, the releases of those levels go, a release of
      another level loses it as a cause, and every other row of every table is as it was. */
  lemma ImportCascadeIsExact(db: Db, id: nat)
    requires Keyed(db)
    ensures var after := Transact(db, [DeleteImport(id)]);
      && after.accounts == db.accounts && after.imports == db.imports - {id}
      && after.openings == db.openings && after.events == db.events && after.withdrawals == db.withdrawals
      && (forall i :: i in after.levels <==> i in db.levels && db.levels[i].source != Some(id))
      && (forall i :: i in after.levels ==> after.levels[i] == db.levels[i])
      && (forall i :: i in after.releases <==> i in db.releases && db.levels[db.releases[i].level].source != Some(id))
      && (forall i :: i in after.releases ==>
            after.releases[i]
            == if db.releases[i].cause == Some(id) then db.releases[i].(cause := None) else db.releases[i])
  {
    ImportDisposalCommits(db, id);
    SweptOfAnImport(db, id);
    var levels := KeptLevels(db, {}, {}, (db.imports - {id}).Keys);
    assert forall i :: i in db.levels ==> LevelKeyed(db, db.levels[i]);
    forall i
      ensures i in KeptReleases(db, {}, levels.Keys, (db.imports - {id}).Keys) <==>
              (i in db.releases && db.levels[db.releases[i].level].source != Some(id))
    {
      if i in db.releases { assert ReleaseKeyed(db, db.releases[i]); }
    }
    forall i | i in db.releases && db.releases[i].level in levels
      ensures CauseNulled((db.imports - {id}).Keys, db.releases[i])
           == if db.releases[i].cause == Some(id) then db.releases[i].(cause := None) else db.releases[i]
    {
      assert ReleaseKeyed(db, db.releases[i]);
    }
  }

  lemma SweptOfAnImport(db: Db, id: nat)
    ensures var imports := db.imports - {id};
      var levels := KeptLevels(db, {}, {}, imports.Keys);
      Swept(db, {}, {id}, {}, {})
      == Db(db.accounts, imports, levels, KeptReleases(db, {}, levels.Keys, imports.Keys),
            db.openings, db.events, db.withdrawals)
  {
    assert KeptImports(db, {}, {id}) == db.imports - {id};
    assert KeptFacts(db.openings, {}, {}) == db.openings && KeptFacts(db.events, {}, {}) == db.events;
    assert KeptWithdrawals(db, {}, {}) == db.withdrawals;
  }

  /** Inserts of accounts, imports, openings and events: stored as given, or refused because the id
      is taken or the owner is missing, and then the transaction stores nothing. */
  lemma AnInsertedParentIsAsGiven(db: Db, id: nat, account: nat, f: Fact)
    ensures Transact(db, [InsertAccount(id)]) == db.(accounts := db.accounts + {id})
    ensures Transact(db, [InsertImport(id, account)]) ==
      if id in db.imports || account !in db.accounts then db else db.(imports := db.imports[id := account])
    ensures Transact(db, [InsertOpening(id, f)]) ==
      if id in db.openings || f.account !in db.accounts then db else db.(openings := db.openings[id := f])
    ensures Transact(db, [InsertEvent(id, f)]) ==
      if id in db.events || f.account !in db.accounts then db else db.(events := db.events[id := f])
  {
    BodyOfOne(db, InsertAccount(id));
    if id in db.accounts { assert db.accounts + {id} == db.accounts; }
    BodyOfOne(db, InsertImport(id, account));
    BodyOfOne(db, InsertOpening(id, f));
    BodyOfOne(db, InsertEvent(id, f));
  }

  /** A level names an import of its own account that has no level; a release a level not released,
      and as its cause an import, of its own account; a withdrawal a statement of its own account
      not withdrawn. */
  lemma AnInsertedChildIsAsGiven(db: Db, id: nat, l: Level, r: Release, w: Withdrawal)
    ensures Transact(db, [InsertLevel(id, l)]) ==
      if id in db.levels || l.account !in db.accounts
         || (l.source.Some? && (l.source.value !in db.imports || db.imports[l.source.value] != l.account
                                || exists i :: i in db.levels && db.levels[i].source == l.source))
      then db else db.(levels := db.levels[id := l])
    ensures Transact(db, [InsertRelease(id, r)]) ==
      if id in db.releases || r.account !in db.accounts
         || r.level !in db.levels || db.levels[r.level].account != r.account
         || (r.cause.Some? && (r.cause.value !in db.imports || db.imports[r.cause.value] != r.account))
         || (exists i :: i in db.releases && db.releases[i].level == r.level)
      then db else db.(releases := db.releases[id := r])
    ensures Transact(db, [InsertWithdrawal(id, w)]) ==
      if id in db.withdrawals || w.account !in db.accounts
         || w.event !in db.events || db.events[w.event].account != w.account
         || (exists i :: i in db.withdrawals && db.withdrawals[i].event == w.event)
      then db else db.(withdrawals := db.withdrawals[id := w])
  {
    BodyOfOne(db, InsertLevel(id, l));
    BodyOfOne(db, InsertRelease(id, r));
    BodyOfOne(db, InsertWithdrawal(id, w));
  }

  lemma {:induction false} BodyAppends(x: Txn, before: seq<Statement>, after: seq<Statement>)
    ensures Body(x, before + after) == Body(Body(x, before), after)
    decreases |before|
  {
    if before == [] {
      assert before + after == after;
    } else {
      assert (before + after)[1..] == before[1..] + after;
      BodyAppends(Execute(x, before[0]), before[1..], after);
    }
  }

  /** ON DELETE CASCADE onto budget.account_anchor_history: each level whose import has gone is
      deleted in turn, and its deletion queued. */
  method CascadeToLevels(levels: map<nat, Level>, imports: set<nat>) returns (kept: map<nat, Level>, gone: set<Deleted>)
    ensures kept.Keys <= levels.Keys && forall i :: i in kept ==> kept[i] == levels[i]
    ensures forall i :: i in levels ==>
      (i in kept <==> (levels[i].source.Some? ==> levels[i].source.value in imports))
    ensures gone == set i | i in levels && i !in kept :: LevelGone(levels[i])
  {
    kept, gone := levels, {};
    var unread := levels.Keys;
    while unread != {}
      invariant unread <= kept.Keys <= levels.Keys && forall i :: i in kept ==> kept[i] == levels[i]
      invariant forall i :: i in levels && i !in unread ==>
        (i in kept <==> (levels[i].source.Some? ==> levels[i].source.value in imports))
      invariant gone == set i | i in levels && i !in kept :: LevelGone(levels[i])
      decreases unread
    {
      var i :| i in unread;
      unread := unread - {i};
      if levels[i].source != None && levels[i].source.value !in imports {
        kept, gone := kept - {i}, gone + {LevelGone(levels[i])};
      }
    }
  }

  /** ON DELETE CASCADE onto budget.anchor_releases: each release whose level has gone. */
  method CascadeToReleases(releases: map<nat, Release>, levels: set<nat>)
    returns (kept: map<nat, Release>, gone: set<Deleted>)
    ensures kept.Keys <= releases.Keys && forall i :: i in kept ==> kept[i] == releases[i]
    ensures forall i :: i in releases ==> (i in kept <==> releases[i].level in levels)
    ensures gone == set i | i in releases && i !in kept :: ReleaseGone(releases[i])
  {
    kept, gone := releases, {};
    var unread := releases.Keys;
    while unread != {}
      invariant unread <= kept.Keys <= releases.Keys && forall i :: i in kept ==> kept[i] == releases[i]
      invariant forall i :: i in releases && i !in unread ==> (i in kept <==> releases[i].level in levels)
      invariant gone == set i | i in releases && i !in kept :: ReleaseGone(releases[i])
      decreases unread
    {
      var i :| i in unread;
      unread := unread - {i};
      if releases[i].level !in levels {
        kept, gone := kept - {i}, gone + {ReleaseGone(releases[i])};
      }
    }
  }

  /** ON DELETE SET NULL (released_by_import_id): an UPDATE of each release whose cause has gone,
      each one an UPDATE the arm admits. */
  method NullTheCauses(releases: map<nat, Release>, imports: set<nat>) returns (nulled: map<nat, Release>)
    ensures nulled.Keys == releases.Keys
    ensures forall i :: i in releases ==>
      nulled[i] == CauseNulled(imports, releases[i])
      && (nulled[i] == releases[i] || UpdateAdmitted(imports, releases[i], nulled[i]))
  {
    nulled := releases;
    var unread := releases.Keys;
    while unread != {}
      invariant unread <= releases.Keys == nulled.Keys
      invariant forall i :: i in unread ==> nulled[i] == releases[i]
      invariant forall i :: i in releases && i !in unread ==> nulled[i] == CauseNulled(imports, releases[i])
      decreases unread
    {
      var i :| i in unread;
      unread := unread - {i};
      if releases[i].cause != None && releases[i].cause.value !in imports {
        nulled := nulled[i := releases[i].(cause := None)];
      }
    }
  }

  /** An import's deletion, table after table, leaves the database swept of it at once. */
  lemma SweptTableByTable(db: Db, id: nat, levels: map<nat, Level>, releases: map<nat, Release>)
    requires levels == KeptLevels(db, {}, {}, db.imports.Keys - {id})
    requires releases == KeptReleases(db, {}, levels.Keys, db.imports.Keys - {id})
    ensures db.(imports := db.imports - {id}, levels := levels, releases := releases) == Swept(db, {}, {id}, {}, {})
  {
    assert KeptImports(db, {}, {id}) == db.imports - {id};
    assert (db.imports - {id}).Keys == db.imports.Keys - {id};
    assert KeptFacts(db.openings, {}, {}) == db.openings && KeptFacts(db.events, {}, {}) == db.events;
    assert KeptWithdrawals(db, {}, {}) == db.withdrawals;
  }

  /** Where only levels and releases went, theirs are the deletions queued. */
  lemma LostTableByTable(before: Db, after: Db)
    requires after.openings == before.openings && after.events == before.events
    requires after.withdrawals == before.withdrawals
    ensures Lost(before, after)
         == (set i | i in before.levels && i !in after.levels :: LevelGone(before.levels[i]))
            + (set i | i in before.releases && i !in after.releases :: ReleaseGone(before.releases[i]))
  {
  }

  // ---------------------------------------------------------------- the trigger body

  /** A session's open transaction over the tables the trigger function reads. */
  class Session {
    var db: Db
    var queue: set<Deleted>
    var failed: bool

    constructor (db: Db)
      ensures this.db == db && queue == {} && !failed
    {
      this.db, queue, failed := db, {}, false;
    }

    /** The function's DELETE arm: each table's second owner first, then the account. */
    method RefusesDelete(gone: Deleted) returns (refused: bool)
      ensures refused <==> !DeleteAdmitted(db, gone)
    {
      var account: nat;
      match gone {
        case LevelGone(l) =>
          if l.source != None && l.source.value !in db.imports { return false; }
          account := l.account;
        case ReleaseGone(r) =>
          if r.level !in db.levels { return false; }
          account := r.account;
        case WithdrawalGone(w) =>
          if w.event !in db.events { return false; }
          account := w.account;
        case OpeningGone(f) => account := f.account;
        case EventGone(f) => account := f.account;
      }
      return account in db.accounts;
    }

    /** UPDATE budget.anchor_releases: the arm asked at the statement. */
    method UpdateARelease(id: nat, after: Release)
      modifies this
      ensures Txn(db, queue, failed, {})
           == Execute(Txn(old(db), old(queue), old(failed), {}), UpdateRelease(id, after))
    {
      if !failed && id in db.releases {
        var before := db.releases[id];
        if before.cause != None && after == before.(cause := None) && before.cause.value !in db.imports {
          db := db.(releases := db.releases[id := after]);
        } else {
          failed := true;
        }
      }
    }

    /** DELETE FROM budget.statement_imports: the row, then the keys' actions table by table.  What
        is left and what is queued is the database swept of that import at once: its levels and
        their releases gone, every other row as it was but for a cause that named the import. */
    method DeleteAnImport(id: nat)
      modifies this
      ensures var x := Execute(Txn(old(db), old(queue), old(failed), {}), DeleteImport(id));
        db == x.db && queue == x.queue && failed == x.failed
    {
      if failed { return; }
      var imports := db.imports - {id};
      var levels, levelsGone := CascadeToLevels(db.levels, imports.Keys);
      var kept, releasesGone := CascadeToReleases(db.releases, levels.Keys);
      var releases := NullTheCauses(kept, imports.Keys);
      SweptTableByTable(db, id, levels, releases);
      LostTableByTable(db, Swept(db, {}, {id}, {}, {}));
      db := db.(imports := imports, levels := levels, releases := releases);
      queue := queue + levelsGone + releasesGone;
    }

    /** COMMIT: every queued delete is asked of the end state; one refusal undoes the transaction. */
    method Commit(began: Db)
      modifies this
      ensures db == if Commits(Txn(old(db), old(queue), old(failed), {})) then old(db) else began
    {
      if failed {
        db := began;
        return;
      }
      var todo := queue;
      while todo != {}
        invariant todo <= queue && db == old(db) && queue == old(queue)
        invariant forall gone :: gone in queue - todo ==> DeleteAdmitted(db, gone)
        decreases todo
      {
        var gone :| gone in todo;
        var refused := RefusesDelete(gone);
        if refused {
          db := began;
          return;
        }
        todo := todo - {gone};
      }
    }
  }
}
