/** The audit trail of a table (app/audit_infrastructure.py, system.audit_trigger_func).

    An AFTER ROW trigger writes one log row per insert, delete and effective update, in the
    transaction that made it, so a rollback to a savepoint or of a transaction takes both
    together.  TRUNCATE fires no row trigger. */
module Audit {
  import opened Wrappers

  /** A jsonb value; numbers compare by value, objects by key. */
  datatype Json =
    | JsonNull
    | JsonBool(flag: bool)
    | JsonNumber(number: real)
    | JsonText(text: string)
    | JsonArray(items: seq<Json>)
    | JsonObject(members: map<string, Json>)

  /** to_jsonb of a row: one key per column. */
  type Row = map<string, Json>

  datatype Entry =
    | Inserted(rowId: Json, newData: Row)
    | Updated(rowId: Json, oldData: Row, newData: Row, changedFields: seq<string>)
    | Deleted(rowId: Json, oldData: Row)

  datatype World = World(table: map<Json, Row>, log: seq<Entry>)

  /** What a session may do; a block is a transaction or a savepoint, released or rolled back. */
  datatype Op =
    | Insert(row: Row)
    | Update(id: Json, row: Row)
    | Delete(id: Json)
    | Truncate
    | Block(ops: seq<Op>, released: bool)

  /** The audited table: its columns, in the order jsonb_each yields them, and whether TRUNCATE is
      refused on it (app/append_only_infrastructure.py). */
  datatype Shape = Shape(columns: seq<string>, refusesTruncate: bool)

  predicate Fits(shape: Shape, row: Row) {
    && "id" in shape.columns
    && (forall k :: k in row ==> k in shape.columns)
    && (forall k :: k in shape.columns ==> k in row)
  }

  function Id(row: Row): Json {
    if "id" in row then row["id"] else JsonNull
  }

  // ---------------------------------------------------------------- the trigger

  /** `NOT old ? key OR old -> key IS DISTINCT FROM new -> key`. */
  predicate Differs(before: Row, after: Row, key: string) {
    key in after && (key !in before || before[key] != after[key])
  }

  function ChangedFields(columns: seq<string>, before: Row, after: Row): seq<string> {
    if columns == [] then []
    else
      var last := columns[|columns| - 1];
      ChangedFields(columns[..|columns| - 1], before, after) + if Differs(before, after, last) then [last] else []
  }

  /** The log rows an UPDATE of one row writes: none when no column changed. */
  function UpdateEntries(columns: seq<string>, before: Row, after: Row): seq<Entry> {
    var changed := ChangedFields(columns, before, after);
    if changed == [] then [] else [Updated(Id(after), before, after, changed)]
  }

  lemma {:induction false} ChangedFieldsAreThoseThatDiffer(columns: seq<string>, before: Row, after: Row, key: string)
    ensures key in ChangedFields(columns, before, after)
       <==> key in columns && key in after && (key !in before || before[key] != after[key])
  {
    if columns == [] {
    } else {
      assert columns == columns[..|columns| - 1] + [columns[|columns| - 1]];
      ChangedFieldsAreThoseThatDiffer(columns[..|columns| - 1], before, after, key);
    }
  }

  /** An update is suppressed exactly when it left the row as it was. */
  lemma SuppressedExactlyWhenUnchanged(shape: Shape, before: Row, after: Row)
    requires Fits(shape, before) && Fits(shape, after)
    ensures ChangedFields(shape.columns, before, after) == [] <==> before == after
  {
    var changed := ChangedFields(shape.columns, before, after);
    forall k | k in after ensures Differs(before, after, k) <==> k in changed {
      ChangedFieldsAreThoseThatDiffer(shape.columns, before, after, k);
    }
    if changed == [] {
      assert forall k :: k in after ==> !Differs(before, after, k);
    } else {
      ChangedFieldsAreThoseThatDiffer(shape.columns, before, after, changed[0]);
    }
  }

  // ---------------------------------------------------------------- histories

  /** One operation: the table and its log after it, or None when it raises. */
  function Step(shape: Shape, w: World, op: Op): Option<World>
    decreases op
  {
    match op
    case Insert(row) =>
      if !Fits(shape, row) || Id(row) in w.table then None
      else Some(World(w.table[Id(row) := row], w.log + [Inserted(Id(row), row)]))
    case Update(id, row) =>
      if id !in w.table then Some(w)
      else if !Fits(shape, row) || (Id(row) != id && Id(row) in w.table) then None
      else Some(World((w.table - {id})[Id(row) := row], w.log + UpdateEntries(shape.columns, w.table[id], row)))
    case Delete(id) =>
      if id !in w.table then Some(w)
      else Some(World(w.table - {id}, w.log + [Deleted(id, w.table[id])]))
    case Truncate => if shape.refusesTruncate then None else Some(World(map[], w.log))
    case Block(ops, released) =>
      var inner := Steps(shape, w, ops);
      if released && inner.Some? then inner else Some(w)
  }

  function Steps(shape: Shape, w: World, ops: seq<Op>): Option<World>
    decreases ops
  {
    if ops == [] then Some(w)
    else
      var next := Step(shape, w, ops[0]);
      if next.None? then None else Steps(shape, next.value, ops[1..])
  }

  /** A history: each operation its own transaction, one that raises undone. */
  function History(shape: Shape, w: World, transactions: seq<Op>): World
    decreases |transactions|
  {
    if transactions == [] then w
    else
      var next := Step(shape, w, transactions[0]);
      History(shape, if next.Some? then next.value else w, transactions[1..])
  }

  predicate NoTruncate(op: Op) {
    match op
    case Truncate => false
    case Block(ops, _) => forall o :: o in ops ==> NoTruncate(o)
    case _ => true
  }

  /** Where the trail is whole: TRUNCATE refused, or not issued. */
  predicate Trailed(shape: Shape, op: Op) {
    shape.refusesTruncate || NoTruncate(op)
  }

  /** Only a TRUNCATE that is not refused, itself or in a block at any depth, is left out. */
  lemma OnlyATruncateIsUntrailed(shape: Shape, id: Json, row: Row, ops: seq<Op>, released: bool)
    ensures Trailed(shape, Insert(row)) && Trailed(shape, Delete(id)) && Trailed(shape, Update(id, row))
    ensures Trailed(shape, Truncate) <==> shape.refusesTruncate
    ensures Trailed(shape, Block(ops, released)) <==> forall op :: op in ops ==> Trailed(shape, op)
  {
  }

  // ---------------------------------------------------------------- what each operation does

  /** A row is a fit when it has a value for each column and for nothing else, its id among them. */
  lemma FitMeansEveryColumn(shape: Shape, row: Row)
    ensures Fits(shape, row) <==> "id" in shape.columns && row.Keys == set k | k in shape.columns
  {
  }

  /** An insert stores the row given and logs it, or raises when the row is no fit or its id is taken. */
  lemma AnInsertIsStoredAndLogged(shape: Shape, w: World, row: Row)
    ensures Step(shape, w, Insert(row)) ==
      if !Fits(shape, row) || row["id"] in w.table then None
      else Some(World(w.table[row["id"] := row], w.log + [Inserted(row["id"], row)]))
  {
  }

  /** A delete takes the row and logs it as it was; one that finds no row does nothing. */
  lemma ADeleteIsTakenAndLogged(shape: Shape, w: World, id: Json)
    ensures Step(shape, w, Delete(id)) ==
      if id in w.table then Some(World(w.table - {id}, w.log + [Deleted(id, w.table[id])])) else Some(w)
  {
  }

  /** An update stores the row given in place of the old one; it logs both rows, and which columns
      differ, unless none does; it raises when the row is no fit or its id is another row's. */
  lemma AnUpdateIsStoredAndLogged(shape: Shape, w: World, id: Json, row: Row)
    requires Rows(shape, w.table)
    ensures var next := Step(shape, w, Update(id, row));
      && (id !in w.table ==> next == Some(w))
      && (id in w.table && (!Fits(shape, row) || (row["id"] != id && row["id"] in w.table)) ==> next == None)
      && (id in w.table && Fits(shape, row) && (row["id"] == id || row["id"] !in w.table) ==>
            && next.Some? && next.value.table == (w.table - {id})[row["id"] := row]
            && if row == w.table[id] then next.value.log == w.log
               else exists fields :: next.value.log == w.log + [Updated(row["id"], w.table[id], row, fields)]
                                     && forall k :: k in fields <==> k in row && w.table[id][k] != row[k])
  {
    if id in w.table && Fits(shape, row) && (row["id"] == id || row["id"] !in w.table) {
      var before := w.table[id];
      var fields := ChangedFields(shape.columns, before, row);
      SuppressedExactlyWhenUnchanged(shape, before, row);
      forall k ensures k in fields <==> k in row && before[k] != row[k] {
        ChangedFieldsAreThoseThatDiffer(shape.columns, before, row, k);
      }
    }
  }

  /** A block rolled back, or one of whose operations raises, leaves neither rows nor log; a block
      released is its operations one after another, and one inside it undone is not among them. */
  lemma ABlockIsAllOrNothing(shape: Shape, w: World, op: Op, ops: seq<Op>, released: bool)
    ensures Step(shape, w, Block(ops, false)) == Some(w)
    ensures Step(shape, w, Block([], released)) == Some(w) && Steps(shape, w, []) == Some(w)
    ensures Step(shape, w, Op.Block([op] + ops, true)) ==
      if Step(shape, w, op).None? then Some(w)
      else
        var rest := Steps(shape, Step(shape, w, op).value, ops);
        Some(if rest.Some? then rest.value else w)
    ensures Steps(shape, w, [op] + ops) ==
      if Step(shape, w, op).None? then None else Steps(shape, Step(shape, w, op).value, ops)
  {
    assert ([op] + ops)[1..] == ops;
  }

  /** A transaction that raises leaves the history as it was, and the next one goes on from there. */
  lemma AHistoryGoesOn(shape: Shape, w: World, op: Op, rest: seq<Op>)
    ensures History(shape, w, [op] + rest)
         == History(shape, if Step(shape, w, op).Some? then Step(shape, w, op).value else w, rest)
    ensures History(shape, w, []) == w
    ensures Step(shape, w, Truncate) == if shape.refusesTruncate then None else Some(World(map[], w.log))
  {
    assert ([op] + rest)[1..] == rest;
  }

  // ---------------------------------------------------------------- reading the log

  function Redo(t: map<Json, Row>, e: Entry): map<Json, Row> {
    match e
    case Inserted(id, after) => t[id := after]
    case Updated(id, before, after, _) => (t - {Id(before)})[id := after]
    case Deleted(id, _) => t - {id}
  }

  function Replay(t: map<Json, Row>, log: seq<Entry>): map<Json, Row> {
    if log == [] then t else Redo(Replay(t, log[..|log| - 1]), log[|log| - 1])
  }

  function UndoOne(t: map<Json, Row>, e: Entry): map<Json, Row> {
    match e
    case Inserted(id, _) => t - {id}
    case Updated(id, before, _, _) => (t - {id})[Id(before) := before]
    case Deleted(id, before) => t[id := before]
  }

  /** The log undone, latest entry first. */
  function Undo(t: map<Json, Row>, log: seq<Entry>): map<Json, Row>
    decreases |log|
  {
    if log == [] then t else Undo(UndoOne(t, log[|log| - 1]), log[..|log| - 1])
  }

  /** A row with only the named fields taken from the new data. */
  function Patched(row: Row, after: Row, fields: seq<string>): Row {
    map k | k in row :: if k in fields && k in after then after[k] else row[k]
  }

  /** Redo reading nothing of an update's new data but its changed fields. */
  function RedoFields(t: map<Json, Row>, e: Entry): map<Json, Row> {
    match e
    case Updated(id, before, after, fields) =>
      if Id(before) in t then (t - {Id(before)})[id := Patched(t[Id(before)], after, fields)] else t
    case _ => Redo(t, e)
  }

  function ReplayFields(t: map<Json, Row>, log: seq<Entry>): map<Json, Row> {
    if log == [] then t else RedoFields(ReplayFields(t, log[..|log| - 1]), log[|log| - 1])
  }

  // ---------------------------------------------------------------- the trail

  ghost predicate Rows(shape: Shape, t: map<Json, Row>) {
    forall id :: id in t ==> Fits(shape, t[id]) && Id(t[id]) == id
  }

  /** The entry says what was in the table, and what its columns became. */
  ghost predicate Tells(shape: Shape, t: map<Json, Row>, e: Entry) {
    match e
    case Inserted(id, after) => id !in t && Fits(shape, after) && Id(after) == id
    case Updated(id, before, after, fields) =>
      && Id(before) in t && t[Id(before)] == before
      && Fits(shape, after) && Id(after) == id && (id == Id(before) || id !in t)
      && fields == ChangedFields(shape.columns, before, after)
    case Deleted(id, before) => id in t && t[id] == before
  }

  ghost predicate Trail(shape: Shape, t: map<Json, Row>, log: seq<Entry>) {
    forall k :: 0 <= k < |log| ==> Tells(shape, Replay(t, log[..k]), log[k])
  }

  lemma {:induction false} ReplayAppends(t: map<Json, Row>, one: seq<Entry>, two: seq<Entry>)
    ensures Replay(t, one + two) == Replay(Replay(t, one), two)
    decreases |two|
  {
    if two == [] {
      assert one + two == one;
    } else {
      assert (one + two)[..|one + two| - 1] == one + two[..|two| - 1];
      ReplayAppends(t, one, two[..|two| - 1]);
    }
  }

  lemma TrailAppends(shape: Shape, t: map<Json, Row>, one: seq<Entry>, two: seq<Entry>)
    requires Trail(shape, t, one) && Trail(shape, Replay(t, one), two)
    ensures Trail(shape, t, one + two)
  {
    forall k | 0 <= k < |one + two| ensures Tells(shape, Replay(t, (one + two)[..k]), (one + two)[k]) {
      if k < |one| {
        assert (one + two)[..k] == one[..k];
      } else {
        assert (one + two)[..k] == one + two[..k - |one|];
        ReplayAppends(t, one, two[..k - |one|]);
      }
    }
  }

  /** The log grew by a trail that replays the earlier table into the later. */
  ghost predicate Follows(shape: Shape, before: World, after: World) {
    && Rows(shape, after.table)
    && before.log <= after.log
    && var d := after.log[|before.log|..];
       Trail(shape, before.table, d) && Replay(before.table, d) == after.table
  }

  lemma FollowsOne(shape: Shape, before: World, after: World, e: Entry)
    requires after.log == before.log + [e] && Tells(shape, before.table, e) && Redo(before.table, e) == after.table
    requires Rows(shape, after.table)
    ensures Follows(shape, before, after)
  {
    var d := after.log[|before.log|..];
    assert d == [e];
    assert d[..0] == [];
    assert Replay(before.table, d[..0]) == before.table;
  }

  lemma FollowsSelf(shape: Shape, w: World)
    requires Rows(shape, w.table)
    ensures Follows(shape, w, w)
  {
    assert w.log[|w.log|..] == [];
  }

  lemma FollowsOnwards(shape: Shape, a: World, b: World, c: World)
    requires Follows(shape, a, b) && Follows(shape, b, c)
    ensures Follows(shape, a, c)
  {
    var one, two := b.log[|a.log|..], c.log[|b.log|..];
    assert c.log[|a.log|..] == one + two;
    ReplayAppends(a.table, one, two);
    TrailAppends(shape, a.table, one, two);
  }

  lemma UpdateFollows(shape: Shape, w: World, id: Json, row: Row)
    requires Rows(shape, w.table) && id in w.table && Fits(shape, row) && (Id(row) == id || Id(row) !in w.table)
    ensures Follows(shape, w, Step(shape, w, Update(id, row)).value)
  {
    var next := Step(shape, w, Update(id, row)).value;
    var before := w.table[id];
    SuppressedExactlyWhenUnchanged(shape, before, row);
    if before == row {
      assert next.table == w.table && next.log == w.log;
      FollowsSelf(shape, w);
    } else {
      FollowsOne(shape, w, next, Updated(Id(row), before, row, ChangedFields(shape.columns, before, row)));
    }
  }

  lemma {:induction false} StepFollows(shape: Shape, w: World, op: Op)
    requires Rows(shape, w.table) && Trailed(shape, op)
    ensures Step(shape, w, op).Some? ==> Follows(shape, w, Step(shape, w, op).value)
    decreases op
  {
    FollowsSelf(shape, w);
    match op
    case Insert(row) =>
      if Step(shape, w, op).Some? { FollowsOne(shape, w, Step(shape, w, op).value, Inserted(Id(row), row)); }
    case Update(id, row) =>
      if id in w.table && Step(shape, w, op).Some? { UpdateFollows(shape, w, id, row); }
    case Delete(id) =>
      if id in w.table { FollowsOne(shape, w, Step(shape, w, op).value, Deleted(id, w.table[id])); }
    case Block(ops, released) => StepsFollow(shape, w, ops);
    case Truncate =>
  }

  lemma {:induction false} StepsFollow(shape: Shape, w: World, ops: seq<Op>)
    requires Rows(shape, w.table) && forall o :: o in ops ==> Trailed(shape, o)
    ensures Steps(shape, w, ops).Some? ==> Follows(shape, w, Steps(shape, w, ops).value)
    decreases ops
  {
    if ops == [] {
      FollowsSelf(shape, w);
    } else {
      StepFollows(shape, w, ops[0]);
      var next := Step(shape, w, ops[0]);
      if next.Some? {
        StepsFollow(shape, next.value, ops[1..]);
        if Steps(shape, next.value, ops[1..]).Some? {
          FollowsOnwards(shape, w, next.value, Steps(shape, next.value, ops[1..]).value);
        }
      }
    }
  }

  lemma {:induction false} HistoryFollows(shape: Shape, w: World, transactions: seq<Op>)
    requires Rows(shape, w.table) && forall o :: o in transactions ==> Trailed(shape, o)
    ensures Follows(shape, w, History(shape, w, transactions))
    decreases |transactions|
  {
    if transactions == [] {
      FollowsSelf(shape, w);
    } else {
      StepFollows(shape, w, transactions[0]);
      FollowsSelf(shape, w);
      var next := Step(shape, w, transactions[0]);
      var reached := if next.Some? then next.value else w;
      HistoryFollows(shape, reached, transactions[1..]);
      FollowsOnwards(shape, w, reached, History(shape, reached, transactions[1..]));
    }
  }

  // ---------------------------------------------------------------- what the trail is good for

  lemma {:induction false} ReplayKeepsRows(shape: Shape, t: map<Json, Row>, log: seq<Entry>)
    requires Rows(shape, t) && Trail(shape, t, log)
    ensures Rows(shape, Replay(t, log))
  {
    if log == [] {
    } else {
      TrailInit(shape, t, log);
      ReplayKeepsRows(shape, t, log[..|log| - 1]);
      assert Tells(shape, Replay(t, log[..|log| - 1]), log[|log| - 1]);
    }
  }

  lemma TrailInit(shape: Shape, t: map<Json, Row>, log: seq<Entry>)
    requires log != [] && Trail(shape, t, log)
    ensures Trail(shape, t, log[..|log| - 1])
  {
    var init := log[..|log| - 1];
    forall k | 0 <= k < |init| ensures Tells(shape, Replay(t, init[..k]), init[k]) {
      assert init[..k] == log[..k];
      assert Tells(shape, Replay(t, log[..k]), log[k]);
    }
  }

  lemma UndoOneUndoes(shape: Shape, t: map<Json, Row>, e: Entry)
    requires Rows(shape, t) && Tells(shape, t, e)
    ensures UndoOne(Redo(t, e), e) == t
  {
    match e
    case Inserted(id, after) => assert t[id := after] - {id} == t;
    case Updated(id, before, after, _) => assert UndoOne(Redo(t, e), e) == t;
    case Deleted(id, before) => assert (t - {id})[id := before] == t;
  }

  /** Undoing a trail backwards gives the table it began on. */
  lemma {:induction false} UndoRecovers(shape: Shape, t: map<Json, Row>, log: seq<Entry>)
    requires Rows(shape, t) && Trail(shape, t, log)
    ensures Undo(Replay(t, log), log) == t
    decreases |log|
  {
    if log == [] {
    } else {
      var init := log[..|log| - 1];
      TrailInit(shape, t, log);
      ReplayKeepsRows(shape, t, init);
      assert Tells(shape, Replay(t, init), log[|log| - 1]);
      UndoOneUndoes(shape, Replay(t, init), log[|log| - 1]);
      UndoRecovers(shape, t, init);
    }
  }

  lemma PatchIsTheNewRow(shape: Shape, before: Row, after: Row)
    requires Fits(shape, before) && Fits(shape, after)
    ensures Patched(before, after, ChangedFields(shape.columns, before, after)) == after
  {
    var fields := ChangedFields(shape.columns, before, after);
    forall k | k in before
      ensures (if k in fields && k in after then after[k] else before[k]) == after[k]
    {
      ChangedFieldsAreThoseThatDiffer(shape.columns, before, after, k);
    }
  }

  /** Replaying only the changed fields gives the same table. */
  lemma {:induction false} FieldsSuffice(shape: Shape, t: map<Json, Row>, log: seq<Entry>)
    requires Rows(shape, t) && Trail(shape, t, log)
    ensures ReplayFields(t, log) == Replay(t, log)
    decreases |log|
  {
    if log == [] {
    } else {
      var init, e := log[..|log| - 1], log[|log| - 1];
      TrailInit(shape, t, log);
      ReplayKeepsRows(shape, t, init);
      FieldsSuffice(shape, t, init);
      assert Tells(shape, Replay(t, init), e);
      if e.Updated? { PatchIsTheNewRow(shape, e.oldData, e.newData); }
    }
  }

  /** A stored row version is still in the table, or an entry holds it. */
  lemma {:induction false} NoVersionIsLost(shape: Shape, t: map<Json, Row>, log: seq<Entry>, id: Json)
    requires Rows(shape, t) && Trail(shape, t, log) && id in t
    ensures var after := Replay(t, log);
      (id in after && after[id] == t[id])
      || exists k :: 0 <= k < |log| && (log[k].Updated? || log[k].Deleted?) && log[k].oldData == t[id]
    decreases |log|
  {
    if log == [] {
    } else {
      var init, e := log[..|log| - 1], log[|log| - 1];
      TrailInit(shape, t, log);
      NoVersionIsLost(shape, t, init, id);
      var before := Replay(t, init);
      if id in before && before[id] == t[id] {
        ReplayKeepsRows(shape, t, init);
        assert Tells(shape, before, e);
        if (e.Updated? || e.Deleted?) && e.oldData == t[id] { assert log[|log| - 1] == e; }
      } else {
        var k :| 0 <= k < |init| && (init[k].Updated? || init[k].Deleted?) && init[k].oldData == t[id];
        assert log[k] == init[k];
      }
    }
  }

  /** Any history, rollbacks included: with the earlier and the later state of a run, the entries
      between them replay the one into the other, replay it by changed fields alone, undo it
      back, and hold every row version that is no longer in the table. */
  lemma TheLogTellsTheWholeHistory(shape: Shape, w: World, transactions: seq<Op>)
    requires Rows(shape, w.table) && forall o :: o in transactions ==> Trailed(shape, o)
    ensures var after := History(shape, w, transactions);
      && w.log <= after.log
      && var d := after.log[|w.log|..];
         && Replay(w.table, d) == after.table
         && ReplayFields(w.table, d) == after.table
         && Undo(after.table, d) == w.table
         && forall id :: id in w.table ==>
              (id in after.table && after.table[id] == w.table[id])
              || exists k :: 0 <= k < |d| && (d[k].Updated? || d[k].Deleted?) && d[k].oldData == w.table[id]
  {
    HistoryFollows(shape, w, transactions);
    var after := History(shape, w, transactions);
    var d := after.log[|w.log|..];
    UndoRecovers(shape, w.table, d);
    FieldsSuffice(shape, w.table, d);
    forall id | id in w.table
      ensures (id in after.table && after.table[id] == w.table[id])
           || exists k :: 0 <= k < |d| && (d[k].Updated? || d[k].Deleted?) && d[k].oldData == w.table[id]
    {
      NoVersionIsLost(shape, w.table, d, id);
    }
  }

  /** Every state on the way is recovered from the last: history cut anywhere. */
  lemma EveryEarlierStateIsRecovered(shape: Shape, early: seq<Op>, late: seq<Op>)
    requires forall o :: o in early + late ==> Trailed(shape, o)
    ensures var empty := World(map[], []);
      var earlier := History(shape, empty, early);
      var now := History(shape, empty, early + late);
      && now.table == Replay(map[], now.log)
      && earlier.log <= now.log
      && earlier.table == Undo(now.table, now.log[|earlier.log|..])
      && earlier.table == Replay(map[], now.log[..|earlier.log|])
  {
    var empty := World(map[], []);
    assert forall o :: o in early ==> o in early + late;
    assert forall o :: o in late ==> o in early + late;
    HistoryFollows(shape, empty, early);
    var earlier := History(shape, empty, early);
    TheLogTellsTheWholeHistory(shape, earlier, late);
    HistoryAppends(shape, empty, early, late);
    HistoryFollows(shape, empty, early + late);
    var now := History(shape, empty, early + late);
    assert now.log[|empty.log|..] == now.log && earlier.log[|empty.log|..] == earlier.log;
    assert now.log[..|earlier.log|] == earlier.log;
  }

  lemma {:induction false} HistoryAppends(shape: Shape, w: World, early: seq<Op>, late: seq<Op>)
    ensures History(shape, w, early + late) == History(shape, History(shape, w, early), late)
    decreases |early|
  {
    if early == [] {
      assert early + late == late;
    } else {
      assert (early + late)[1..] == early[1..] + late;
      var next := Step(shape, w, early[0]);
      HistoryAppends(shape, if next.Some? then next.value else w, early[1..], late);
    }
  }

  /** A TRUNCATE keeps the log telling exactly when it is refused or has nothing to remove; a
      table that refuses it loses no row version over any history. */
  lemma TruncateIsToldExactlyWhenRefused(shape: Shape, w: World)
    requires Replay(map[], w.log) == w.table
    ensures var after := History(shape, w, [Truncate]);
      Replay(map[], after.log) == after.table <==> shape.refusesTruncate || w.table == map[]
  {
    assert [Truncate][1..] == [];
  }

  // ---------------------------------------------------------------- the trigger body

  /** An audited table and its log, each row write followed by the trigger. */
  class AuditedTable {
    const shape: Shape
    var table: map<Json, Row>
    var log: seq<Entry>

    constructor (shape: Shape)
      ensures this.shape == shape && State() == World(map[], [])
    {
      this.shape, table, log := shape, map[], [];
    }

    ghost function State(): World
      reads this
    {
      World(table, log)
    }

    /** The loop over jsonb_each(new). */
    method CollectChanged(before: Row, after: Row) returns (changed: seq<string>)
      ensures changed == ChangedFields(shape.columns, before, after)
    {
      changed := [];
      for i := 0 to |shape.columns|
        invariant changed == ChangedFields(shape.columns[..i], before, after)
      {
        var key := shape.columns[i];
        assert shape.columns[..i + 1][..i] == shape.columns[..i];
        if key in after && (key !in before || before[key] != after[key]) {
          changed := changed + [key];
        }
      }
      assert shape.columns[..|shape.columns|] == shape.columns;
    }

    method InsertRow(row: Row) returns (raised: bool)
      modifies this
      ensures raised <==> Step(shape, old(State()), Insert(row)).None?
      ensures raised ==> State() == old(State())
      ensures !raised ==> Step(shape, old(State()), Insert(row)) == Some(State())
    {
      if !Fits(shape, row) || Id(row) in table { return true; }
      table := table[Id(row) := row];
      log := log + [Inserted(Id(row), row)];
      return false;
    }

    method UpdateRow(id: Json, row: Row) returns (raised: bool)
      modifies this
      ensures raised <==> Step(shape, old(State()), Update(id, row)).None?
      ensures raised ==> State() == old(State())
      ensures !raised ==> Step(shape, old(State()), Update(id, row)) == Some(State())
    {
      if id !in table { return false; }
      if !Fits(shape, row) || (Id(row) != id && Id(row) in table) { return true; }
      var before := table[id];
      table := (table - {id})[Id(row) := row];
      var changed := CollectChanged(before, row);
      if |changed| != 0 {
        log := log + [Updated(Id(row), before, row, changed)];
      } else {
        assert log + [] == log;
      }
      return false;
    }

    method DeleteRow(id: Json)
      modifies this
      ensures Step(shape, old(State()), Delete(id)) == Some(State())
    {
      if id in table {
        log := log + [Deleted(id, table[id])];
        table := table - {id};
      }
    }
  }
}
