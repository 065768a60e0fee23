/** The bound on a bank level's day (app/level_infrastructure.py).

    The day is a column of the level, the bounds are columns of the import it names, so the
    rule is asked from both tables.  Transactions run one at a time, which is what the owner
    lock gives requests; a raised arm, CHECK or key undoes the transaction.  Days are day
    numbers, balances cents. */
module Levels {
  import opened Wrappers

  // ---------------------------------------------------------------- the rule, three-valued

  datatype Tri = Yes | No | Unknown

  function And3(a: Tri, b: Tri): Tri {
    if a == No || b == No then No else if a == Yes && b == Yes then Yes else Unknown
  }

  function AtMost(a: Option<int>, b: Option<int>): Tri {
    if a.None? || b.None? then Unknown else if a.value <= b.value then Yes else No
  }

  function DayBefore(day: Option<int>): Option<int> {
    if day.None? then None else Some(day.value - 1)
  }

  /** budget.level_lies_within_file. */
  function LiesWithinFile(day: int, first: Option<int>, last: Option<int>, stated: Option<int>): Tri {
    And3(And3(AtMost(DayBefore(first), Some(day)), AtMost(Some(day), last)), AtMost(Some(day), stated))
  }

  /** `IF NOT rule` raises on a definite No alone: an unstated day refuses what the window refuses,
      and nothing when the window admits. */
  lemma TheRuleRefusesOnlyADefiniteNo(day: int, first: Option<int>, last: Option<int>, stated: Option<int>)
    ensures LiesWithinFile(day, first, last, stated) == No
       <==> || (first.Some? && day < first.value - 1) || (last.Some? && day > last.value)
            || (stated.Some? && day > stated.value)
    ensures LiesWithinFile(day, first, last, stated) == Yes
       <==> && first.Some? && last.Some? && first.value - 1 <= day <= last.value
            && stated.Some? && day <= stated.value
  {
  }

  // ---------------------------------------------------------------- the two tables

  /** budget.statement_imports: the declared window and the balance the file states. */
  datatype Import = Import(start: int, end: int, statedOn: Option<int>, statedBalance: Option<int>)

  /** budget.account_anchor_history: a level names the file it was solved from, or none. */
  datatype Level = Level(source: Option<nat>, observedOn: int, balance: int)

  datatype Db = Db(imports: map<nat, Import>, levels: map<nat, Level>)

  /** Which of the three rules stand: the arm on levels, the arm on imports, and the append-only
      refusal of a level's UPDATE. */
  datatype Guards = Guards(levelArm: bool, importArm: bool, appendOnly: bool)

  const ALL_GUARDS := Guards(true, true, true)

  /** The SET list of an UPDATE of an import: the columns it names, and their new values. */
  datatype Change = Change(
    start: Option<int>,
    end: Option<int>,
    statedOn: Option<Option<int>>,
    statedBalance: Option<Option<int>>)

  datatype Statement =
    | InsertImport(id: nat, row: Import)
    | UpdateImport(id: nat, change: Change)
    | RenumberImport(id: nat, newId: nat)
    | DeleteImport(id: nat)
    | InsertLevel(id: nat, level: Level)
    | UpdateLevel(id: nat, level: Level)
    | DeleteLevel(id: nat)

  function OrElse<T>(named: Option<T>, kept: T): T {
    if named.Some? then named.value else kept
  }

  function Changed(row: Import, c: Change): Import {
    Import(OrElse(c.start, row.start), OrElse(c.end, row.end), OrElse(c.statedOn, row.statedOn),
           OrElse(c.statedBalance, row.statedBalance))
  }

  /** BEFORE UPDATE OF declared_start, declared_end, stated_balance_on. */
  predicate NamesABound(c: Change) {
    c.start.Some? || c.end.Some? || c.statedOn.Some?
  }

  /** The table's own CHECKs. */
  predicate Checked(row: Import) {
    row.start <= row.end && (row.statedOn.None? <==> row.statedBalance.None?)
  }

  /** fk_anchor_history_statement_import_claim: a NULL balance matches no level. */
  predicate ClaimHolds(imports: map<nat, Import>, l: Level) {
    l.source.Some? ==> l.source.value in imports && imports[l.source.value].statedBalance == Some(l.balance)
  }

  predicate Keyed(imports: map<nat, Import>, levels: map<nat, Level>) {
    forall i :: i in levels ==> ClaimHolds(imports, levels[i])
  }

  predicate Placed(levels: map<nat, Level>, source: nat) {
    exists i :: i in levels && levels[i].source == Some(source)
  }

  predicate RuleRefuses(l: Level, file: Import) {
    LiesWithinFile(l.observedOn, Some(file.start), Some(file.end), file.statedOn) == No
  }

  /** budget.refuse_level_outside_its_file: a file not found leaves every bound NULL. */
  predicate LevelArmRefuses(imports: map<nat, Import>, l: Level) {
    l.source.Some? && l.source.value in imports && RuleRefuses(l, imports[l.source.value])
  }

  /** budget.refuse_file_span_leaving_its_level. */
  predicate ImportArmRefuses(levels: map<nat, Level>, id: nat, after: Import) {
    exists i :: i in levels && levels[i].source == Some(id) && RuleRefuses(levels[i], after)
  }

  // ---------------------------------------------------------------- statements

  function Placing(g: Guards, db: Db, id: nat, l: Level): Option<Db> {
    if id in db.levels || (g.levelArm && LevelArmRefuses(db.imports, l)) || !ClaimHolds(db.imports, l)
       || (l.source.Some? && Placed(db.levels, l.source.value))
    then None
    else Some(db.(levels := db.levels[id := l]))
  }

  function Moving(g: Guards, db: Db, id: nat, c: Change): Option<Db>
    requires id in db.imports
  {
    var after := Changed(db.imports[id], c);
    var imports := db.imports[id := after];
    if (g.importArm && NamesABound(c) && ImportArmRefuses(db.levels, id, after)) || !Checked(after)
       || !Keyed(imports, db.levels)
    then None
    else Some(db.(imports := imports))
  }

  function Rewriting(g: Guards, db: Db, id: nat, l: Level): Option<Db>
    requires id in db.levels
  {
    var levels := db.levels[id := l];
    if g.appendOnly || !ClaimHolds(db.imports, l) || (l.source.Some? && Placed(db.levels - {id}, l.source.value))
    then None
    else Some(db.(levels := levels))
  }

  function Renumbering(db: Db, id: nat, newId: nat): Option<Db>
    requires id in db.imports
  {
    var imports := (db.imports - {id})[newId := db.imports[id]];
    if newId in db.imports - {id} || !Keyed(imports, db.levels) then None
    else Some(db.(imports := imports))
  }

  /** One statement: the database after it, or None when it raises. */
  function Execute(g: Guards, db: Db, s: Statement): Option<Db> {
    match s
    case InsertImport(id, row) =>
      if id in db.imports || !Checked(row) then None else Some(db.(imports := db.imports[id := row]))
    case UpdateImport(id, c) => if id in db.imports then Moving(g, db, id, c) else Some(db)
    case RenumberImport(id, newId) => if id in db.imports then Renumbering(db, id, newId) else Some(db)
    case DeleteImport(id) =>
      Some(Db(db.imports - {id}, map i | i in db.levels && db.levels[i].source != Some(id) :: db.levels[i]))
    case InsertLevel(id, l) => Placing(g, db, id, l)
    case UpdateLevel(id, l) => if id in db.levels then Rewriting(g, db, id, l) else Some(db)
    case DeleteLevel(id) => Some(db.(levels := db.levels - {id}))
  }

  function Body(g: Guards, db: Db, statements: seq<Statement>): Option<Db>
    decreases |statements|
  {
    if statements == [] then Some(db)
    else
      var next := Execute(g, db, statements[0]);
      if next.None? then None else Body(g, next.value, statements[1..])
  }

  function Transact(g: Guards, db: Db, statements: seq<Statement>): Db {
    OrElse(Body(g, db, statements), db)
  }

  function Run(g: Guards, db: Db, transactions: seq<seq<Statement>>): Db
    decreases |transactions|
  {
    if transactions == [] then db else Run(g, Transact(g, db, transactions[0]), transactions[1..])
  }

  /** A run is its transactions one after another. */
  lemma {:induction false} ARunIsItsTransactionsInTurn(g: Guards, db: Db, transactions: seq<seq<Statement>>,
                                                       last: seq<Statement>)
    ensures Run(g, db, []) == db
    ensures Run(g, db, transactions + [last]) == Transact(g, Run(g, db, transactions), last)
    decreases |transactions|
  {
    if transactions == [] {
      assert ([last] + [])[1..] == [];
    } else {
      assert (transactions + [last])[1..] == transactions[1..] + [last];
      ARunIsItsTransactionsInTurn(g, Transact(g, db, transactions[0]), transactions[1..], last);
    }
  }

  // ---------------------------------------------------------------- the rule over every run

  /** The day before the declared start to the earlier of the declared end and the stated day,
      which is present. */
  predicate Within(l: Level, file: Import) {
    file.statedOn.Some? && file.start - 1 <= l.observedOn <= file.end && l.observedOn <= file.statedOn.value
  }

  ghost predicate LevelsLieWithin(db: Db) {
    forall i :: i in db.levels && db.levels[i].source.Some? ==>
      db.levels[i].source.value in db.imports && Within(db.levels[i], db.imports[db.levels[i].source.value])
  }

  ghost predicate Inv(db: Db) {
    && (forall i :: i in db.imports ==> Checked(db.imports[i]))
    && Keyed(db.imports, db.levels)
    && LevelsLieWithin(db)
  }

  lemma MovingKeeps(db: Db, id: nat, c: Change)
    requires Inv(db) && id in db.imports && Moving(ALL_GUARDS, db, id, c).Some?
    ensures Inv(Moving(ALL_GUARDS, db, id, c).value)
  {
    var next := Moving(ALL_GUARDS, db, id, c).value;
    forall i | i in next.levels && next.levels[i].source.Some?
      ensures var s := next.levels[i].source.value; s in next.imports && Within(next.levels[i], next.imports[s])
    {
      var l := db.levels[i];
      assert ClaimHolds(next.imports, l);
      assert Within(l, db.imports[l.source.value]);
      if l.source == Some(id) && NamesABound(c) {
        assert !RuleRefuses(l, Changed(db.imports[id], c));
      }
    }
  }

  lemma RenumberingKeeps(db: Db, id: nat, newId: nat)
    requires Inv(db) && id in db.imports && Renumbering(db, id, newId).Some?
    ensures Inv(Renumbering(db, id, newId).value)
  {
    var next := Renumbering(db, id, newId).value;
    forall i | i in next.levels && next.levels[i].source.Some?
      ensures var s := next.levels[i].source.value; s in next.imports && Within(next.levels[i], next.imports[s])
    {
      assert ClaimHolds(next.imports, db.levels[i]) && ClaimHolds(db.imports, db.levels[i]);
    }
  }

  lemma StatementKeeps(db: Db, s: Statement)
    requires Inv(db) && Execute(ALL_GUARDS, db, s).Some?
    ensures Inv(Execute(ALL_GUARDS, db, s).value)
  {
    match s
    case UpdateImport(id, c) => if id in db.imports { MovingKeeps(db, id, c); }
    case RenumberImport(id, newId) => if id in db.imports { RenumberingKeeps(db, id, newId); }
    case InsertImport(id, row) =>
      var next := Execute(ALL_GUARDS, db, s).value;
      assert forall i :: i in db.levels ==> ClaimHolds(db.imports, db.levels[i]);
    case InsertLevel(id, l) =>
      assert !LevelArmRefuses(db.imports, l) && ClaimHolds(db.imports, l);
    case DeleteImport(id) =>
      assert forall i :: i in db.levels ==> ClaimHolds(db.imports, db.levels[i]);
    case _ =>
  }

  lemma {:induction false} BodyKeeps(db: Db, statements: seq<Statement>)
    requires Inv(db)
    ensures Body(ALL_GUARDS, db, statements).Some? ==> Inv(Body(ALL_GUARDS, db, statements).value)
    decreases |statements|
  {
    if statements == [] {
    } else {
      var next := Execute(ALL_GUARDS, db, statements[0]);
      if next.Some? {
        StatementKeeps(db, statements[0]);
        BodyKeeps(next.value, statements[1..]);
      }
    }
  }

  /** Over every run, whichever side is written, every level that names a file lies within it. */
  lemma {:induction false} EveryLevelLiesWithinItsFile(db: Db, transactions: seq<seq<Statement>>)
    requires Inv(db)
    ensures Inv(Run(ALL_GUARDS, db, transactions))
    decreases |transactions|
  {
    if transactions == [] {
    } else {
      BodyKeeps(db, transactions[0]);
      EveryLevelLiesWithinItsFile(Transact(ALL_GUARDS, db, transactions[0]), transactions[1..]);
    }
  }

  // ---------------------------------------------------------------- no more than the rule is refused

  /** A placement is taken exactly when its file exists, states its figure, holds no other
      placement, and the day lies within it. */
  lemma PlacementTakenExactlyWhen(db: Db, id: nat, l: Level)
    requires Inv(db) && id !in db.levels
    ensures Execute(ALL_GUARDS, db, InsertLevel(id, l)).Some? <==>
      (l.source.Some? ==>
        && l.source.value in db.imports
        && db.imports[l.source.value].statedBalance == Some(l.balance)
        && (forall i :: i in db.levels ==> db.levels[i].source != l.source)
        && Within(l, db.imports[l.source.value]))
  {
  }

  /** A file's columns move exactly when the row stays legal and its own placement stays within. */
  lemma MoveTakenExactlyWhen(db: Db, id: nat, c: Change)
    requires Inv(db) && id in db.imports
    ensures var row := db.imports[id];
      var after := Import(if c.start.Some? then c.start.value else row.start,
                          if c.end.Some? then c.end.value else row.end,
                          if c.statedOn.Some? then c.statedOn.value else row.statedOn,
                          if c.statedBalance.Some? then c.statedBalance.value else row.statedBalance);
      Execute(ALL_GUARDS, db, UpdateImport(id, c)).Some? <==>
        && after.start <= after.end && (after.statedOn.None? <==> after.statedBalance.None?)
        && (forall i :: i in db.levels && db.levels[i].source == Some(id) ==>
              after.statedBalance == Some(db.levels[i].balance) && Within(db.levels[i], after))
  {
    var after := Changed(db.imports[id], c);
    var imports := db.imports[id := after];
    assert forall i :: i in db.levels ==> ClaimHolds(db.imports, db.levels[i]);
    if Moving(ALL_GUARDS, db, id, c).Some? {
      MovingKeeps(db, id, c);
      assert forall i :: i in db.levels ==> ClaimHolds(imports, db.levels[i]);
    } else if Checked(after) && !Keyed(imports, db.levels) {
      var i :| i in db.levels && !ClaimHolds(imports, db.levels[i]);
      assert db.levels[i].source == Some(id);
    }
  }

  /** The SET list replaces each column it names, and no other. */
  lemma ChangedColumnsAreThoseNamed(row: Import, c: Change)
    ensures var after := Changed(row, c);
      && after.start == (if c.start == None then row.start else c.start.value)
      && after.end == (if c.end == None then row.end else c.end.value)
      && after.statedOn == (if c.statedOn == None then row.statedOn else c.statedOn.value)
      && after.statedBalance == (if c.statedBalance == None then row.statedBalance else c.statedBalance.value)
  {
  }

  /** A placement taken stores that level and nothing else; a move taken stores the row's changed
      columns and nothing else. */
  lemma WhatIsTakenIsStored(db: Db, id: nat, l: Level, c: Change)
    ensures var next := Execute(ALL_GUARDS, db, InsertLevel(id, l));
      next.Some? ==> id !in db.levels && next.value == Db(db.imports, db.levels[id := l])
    ensures var next := Execute(ALL_GUARDS, db, UpdateImport(id, c));
      && (id !in db.imports ==> next == Some(db))
      && (id in db.imports && next.Some? ==> next.value == Db(db.imports[id := Changed(db.imports[id], c)], db.levels))
  {
  }

  /** A level's UPDATE is refused; one that finds no level does nothing; a level deleted is gone. */
  lemma LevelsAreNotRewritten(db: Db, id: nat, l: Level)
    ensures Execute(ALL_GUARDS, db, UpdateLevel(id, l)) == if id in db.levels then None else Some(db)
    ensures Execute(ALL_GUARDS, db, DeleteLevel(id)) == Some(Db(db.imports, db.levels - {id}))
  {
  }

  /** Were it not refused, an UPDATE of a level would store it as given under the keys alone. */
  lemma AnUnrefusedUpdateMeetsTheKeys(g: Guards, db: Db, id: nat, l: Level)
    requires !g.appendOnly && id in db.levels
    ensures Execute(g, db, UpdateLevel(id, l)) ==
      if l.source.Some?
         && (l.source.value !in db.imports || db.imports[l.source.value].statedBalance != Some(l.balance)
             || exists i :: i in db.levels && i != id && db.levels[i].source == l.source)
      then None
      else Some(Db(db.imports, db.levels[id := l]))
  {
    if l.source.Some? {
      var others := db.levels - {id};
      assert Placed(others, l.source.value) <==>
             exists i :: i in db.levels && i != id && db.levels[i].source == l.source by {
        if i :| i in db.levels && i != id && db.levels[i].source == l.source { assert others[i].source == l.source; }
      }
    }
  }

  /** An import is stored as given when its id is free and its CHECKs hold, deleted with exactly the
      levels that name it, and renumbered exactly when no level does. */
  lemma ImportsComeAndGo(db: Db, id: nat, newId: nat, row: Import)
    requires Inv(db)
    ensures Execute(ALL_GUARDS, db, InsertImport(id, row)) ==
      if id in db.imports || row.end < row.start || row.statedOn.Some? != row.statedBalance.Some? then None
      else Some(Db(db.imports[id := row], db.levels))
    ensures var next := Execute(ALL_GUARDS, db, DeleteImport(id));
      && next.Some? && next.value.imports == db.imports - {id}
      && (forall i :: i in next.value.levels <==> i in db.levels && db.levels[i].source != Some(id))
      && (forall i :: i in next.value.levels ==> next.value.levels[i] == db.levels[i])
    ensures id in db.imports && newId != id ==>
      var next := Execute(ALL_GUARDS, db, RenumberImport(id, newId));
      if newId in db.imports || exists i :: i in db.levels && db.levels[i].source == Some(id) then next == None
      else next == Some(Db((db.imports - {id})[newId := db.imports[id]], db.levels))
    ensures id !in db.imports ==> Execute(ALL_GUARDS, db, RenumberImport(id, newId)) == Some(db)
  {
    if id in db.imports && newId != id && newId !in db.imports {
      RenumberedExactlyWhenUnnamed(db, id, newId);
    }
  }

  lemma RenumberedExactlyWhenUnnamed(db: Db, id: nat, newId: nat)
    requires Inv(db) && id in db.imports && newId != id && newId !in db.imports
    ensures Renumbering(db, id, newId).None? <==> exists i :: i in db.levels && db.levels[i].source == Some(id)
  {
    var imports := (db.imports - {id})[newId := db.imports[id]];
    if i :| i in db.levels && db.levels[i].source == Some(id) {
      assert !ClaimHolds(imports, db.levels[i]);
    } else {
      forall i | i in db.levels ensures ClaimHolds(imports, db.levels[i]) {
        assert ClaimHolds(db.imports, db.levels[i]);
      }
    }
  }

  /** A transaction with a statement that raises stores nothing, whatever comes before or after. */
  lemma {:induction false} ARaiseStoresNothing(db: Db, before: seq<Statement>, s: Statement, after: seq<Statement>)
    requires Body(ALL_GUARDS, db, before).Some? ==> Execute(ALL_GUARDS, Body(ALL_GUARDS, db, before).value, s).None?
    ensures Body(ALL_GUARDS, db, before + [s] + after).None?
    ensures Transact(ALL_GUARDS, db, before + [s] + after) == db
    decreases |before|
  {
    var whole := before + [s] + after;
    if before == [] {
      assert whole[0] == s;
    } else {
      assert whole[0] == before[0] && whole[1..] == before[1..] + [s] + after;
      var next := Execute(ALL_GUARDS, db, before[0]);
      if next.Some? { ARaiseStoresNothing(next.value, before[1..], s, after); }
    }
  }

  /** A transaction none of whose statements raises stores each in turn. */
  lemma StatementsRunInTurn(db: Db, s: Statement, rest: seq<Statement>)
    ensures Body(ALL_GUARDS, db, []) == Some(db)
    ensures Execute(ALL_GUARDS, db, s).Some? ==>
      Body(ALL_GUARDS, db, [s] + rest) == Body(ALL_GUARDS, Execute(ALL_GUARDS, db, s).value, rest)
    ensures Body(ALL_GUARDS, db, [s] + rest).Some? ==>
      Transact(ALL_GUARDS, db, [s] + rest) == Body(ALL_GUARDS, db, [s] + rest).value
  {
    assert ([s] + rest)[1..] == rest;
  }

  // ---------------------------------------------------------------- each of the three is needed

  ghost predicate Guarantees(g: Guards) {
    forall db, transactions :: Inv(db) ==> LevelsLieWithin(Run(g, db, transactions))
  }

  const FILE := Import(10, 20, Some(20), Some(500))
  const PLACED := Db(map[1 := FILE], map[7 := Level(Some(1), 15, 500)])

  /** One statement that leaves a level outside its file under these guards. */
  function Escape(g: Guards): (Db, Statement) {
    if !g.levelArm then (Db(map[1 := FILE], map[]), InsertLevel(7, Level(Some(1), 25, 500)))
    else if !g.importArm then (PLACED, UpdateImport(1, Change(None, Some(12), None, None)))
    else (PLACED, UpdateLevel(7, Level(Some(1), 25, 500)))
  }

  lemma TheEscapeEscapes(g: Guards)
    requires g != ALL_GUARDS
    ensures var (db, s) := Escape(g); Inv(db) && Execute(g, db, s).Some? && !LevelsLieWithin(Execute(g, db, s).value)
  {
    var (db, s) := Escape(g);
    var next := Execute(g, db, s);
    if !g.levelArm {
      assert next.Some? && next.value.levels[7].observedOn == 25;
    } else if !g.importArm {
      assert Changed(FILE, s.change) == Import(10, 12, Some(20), Some(500));
      assert next.Some? && next.value.imports[1].end == 12 && 7 in next.value.levels;
    } else {
      assert !Placed(db.levels - {7}, 1);
      assert next.Some? && next.value.levels[7].observedOn == 25;
    }
  }

  /** The rule holds over every run exactly when both attachments and the append-only refusal stand. */
  lemma EachGuardIsNeeded(g: Guards)
    ensures Guarantees(g) <==> g == ALL_GUARDS
  {
    if g == ALL_GUARDS {
      forall db, transactions | Inv(db) ensures LevelsLieWithin(Run(g, db, transactions)) {
        EveryLevelLiesWithinItsFile(db, transactions);
      }
    } else {
      var (db, s) := Escape(g);
      TheEscapeEscapes(g);
      var next := Execute(g, db, s).value;
      assert Body(g, next, [s][1..]) == Some(next);
      assert Run(g, next, [[s]][1..]) == next;
      assert Run(g, db, [[s]]) == next;
    }
  }

  // ---------------------------------------------------------------- the trigger bodies

  /** A session's open transaction over the two tables. */
  class Session {
    var imports: map<nat, Import>
    var levels: map<nat, Level>
    var failed: bool

    constructor (db: Db)
      ensures imports == db.imports && levels == db.levels && !failed
    {
      imports, levels, failed := db.imports, db.levels, false;
    }

    ghost function State(): Option<Db>
      reads this
    {
      if failed then None else Some(Db(imports, levels))
    }

    /** INSERT INTO budget.account_anchor_history: the arm on levels, then the keys. */
    method InsertALevel(id: nat, l: Level)
      requires !failed
      modifies this
      ensures State() == Execute(ALL_GUARDS, Db(old(imports), old(levels)), InsertLevel(id, l))
      ensures Inv(Db(old(imports), old(levels))) && !failed ==> Inv(Db(imports, levels))
    {
      if Inv(Db(imports, levels)) && Placing(ALL_GUARDS, Db(imports, levels), id, l).Some? {
        StatementKeeps(Db(imports, levels), InsertLevel(id, l));
      }
      if l.source != None && l.source.value in imports {
        var file := imports[l.source.value];
        if LiesWithinFile(l.observedOn, Some(file.start), Some(file.end), file.statedOn) == No {
          failed := true;
          return;
        }
      }
      if id in levels || !ClaimHolds(imports, l) || (l.source != None && Placed(levels, l.source.value)) {
        failed := true;
        return;
      }
      levels := levels[id := l];
    }

    /** SELECT ... LIMIT 1: a level of this file that the new bounds would leave outside. */
    method FindStranded(id: nat, after: Import) returns (stranded: Option<nat>)
      ensures stranded.Some? <==> ImportArmRefuses(levels, id, after)
      ensures stranded.Some? ==> stranded.value in levels && levels[stranded.value].source == Some(id)
                                 && RuleRefuses(levels[stranded.value], after)
    {
      var unread := levels.Keys;
      while unread != {}
        invariant unread <= levels.Keys
        invariant forall i :: i in levels && i !in unread && levels[i].source == Some(id) ==>
          !RuleRefuses(levels[i], after)
        decreases unread
      {
        var i :| i in unread;
        if levels[i].source == Some(id) && RuleRefuses(levels[i], after) {
          return Some(i);
        }
        unread := unread - {i};
      }
      return None;
    }

    /** UPDATE budget.statement_imports: the arm on imports when a bound is named, then CHECKs and keys. */
    method UpdateAnImport(id: nat, c: Change)
      requires !failed && id in imports
      modifies this
      ensures State() == Execute(ALL_GUARDS, Db(old(imports), old(levels)), UpdateImport(id, c))
      ensures Inv(Db(old(imports), old(levels))) && !failed ==> Inv(Db(imports, levels))
    {
      if Inv(Db(imports, levels)) && Moving(ALL_GUARDS, Db(imports, levels), id, c).Some? {
        StatementKeeps(Db(imports, levels), UpdateImport(id, c));
      }
      var after := Changed(imports[id], c);
      if NamesABound(c) {
        var stranded := FindStranded(id, after);
        if stranded != None {
          failed := true;
          return;
        }
      }
      if !Checked(after) || !Keyed(imports[id := after], levels) {
        failed := true;
        return;
      }
      imports := imports[id := after];
    }
  }
}
