/** The rule that a deleted row holds no money (app/deleted_row_infrastructure.py).

    Any number of READ COMMITTED transactions run statement by statement over one
    committed store.  Each keeps its own write set, the row locks it holds to its
    end, and the queue of deferred checks its hides have earned.  A statement that
    needs a lock another transaction holds waits: the step leaves everything as it
    was.  Commit is several steps (start, one per queued check, publish), so other
    transactions interleave between a check and the publish. */
module DeletedRows {
  import opened Wrappers

  /** budget.transactions: is_deleted and the nullable transfer_id. */
  datatype Row = Row(hidden: bool, transfer: Option<nat>)

  /** budget.transaction_entries: the row it is under, and every other column. */
  datatype Movement = Movement(row: nat, facts: int)

  datatype Store = Store(rows: map<nat, Row>, movements: map<nat, Movement>)

  datatype Phase = Active | Committing | Failed

  /** An open transaction.  A write set maps a key to its new value, None for a delete. */
  datatype Txn = Txn(
    phase: Phase,
    rows: map<nat, Option<Row>>,
    movements: map<nat, Option<Movement>>,
    rowLocks: set<nat>,
    movementLocks: set<nat>,
    queue: set<nat>)

  datatype System = System(committed: Store, open: map<nat, Txn>)

  datatype Action =
    | Begin(t: nat)
    | InsertMovement(t: nat, m: nat, value: Movement)
    | UpdateMovement(t: nat, m: nat, value: Movement)
    | DeleteMovement(t: nat, m: nat)
    | InsertRow(t: nat, r: nat, row: Row)
    | UpdateRow(t: nat, r: nat, row: Row)
    | DeleteRow(t: nat, r: nat)
    | StartCommit(t: nat)
    | RunCheck(t: nat, r: nat)
    | Publish(t: nat)
    | Rollback(t: nat)

  // ---------------------------------------------------------------- reading

  function Overlay<V>(base: map<nat, V>, writes: map<nat, Option<V>>): map<nat, V> {
    map k | k in base.Keys + writes.Keys && (k in writes ==> writes[k].Some?)
      :: if k in writes then writes[k].value else base[k]
  }

  /** What a statement of transaction x sees: the latest committed state under its own writes. */
  function View(committed: Store, x: Txn): Store {
    Store(Overlay(committed.rows, x.rows), Overlay(committed.movements, x.movements))
  }

  /** A deleted row that is no transfer's leg: the kind that may hold nothing. */
  predicate MustHoldNothing(row: Row) {
    row.hidden && row.transfer.None?
  }

  /** The rule: every movement is under a stored row, and never under one that must hold nothing. */
  ghost predicate Clean(v: Store) {
    forall m :: m in v.movements ==>
      v.movements[m].row in v.rows && !MustHoldNothing(v.rows[v.movements[m].row])
  }

  predicate Holds(v: Store, r: nat) {
    exists m :: m in v.movements && v.movements[m].row == r
  }

  /** The hiding arm's question, asked of the row as it stands. */
  predicate HidingArmRefuses(v: Store, r: nat) {
    r in v.rows && MustHoldNothing(v.rows[r]) && Holds(v, r)
  }

  // ---------------------------------------------------------------- statements

  predicate RowFree(s: System, t: nat, r: nat) {
    forall u :: u in s.open && u != t ==> r !in s.open[u].rowLocks
  }

  predicate MovementFree(s: System, t: nat, m: nat) {
    forall u :: u in s.open && u != t ==> m !in s.open[u].movementLocks
  }

  predicate Running(s: System, t: nat) {
    t in s.open && s.open[t].phase.Active?
  }

  function Put(s: System, t: nat, x: Txn): System {
    s.(open := s.open[t := x])
  }

  /** A raised exception: the writes and the queued checks are gone, the locks stay to the end. */
  function Fail(x: Txn): Txn {
    x.(phase := Failed, rows := map[], movements := map[], queue := {})
  }

  /** A movement arriving under value.row: the arrival arm, then the foreign key.

      A missing row is read as NULL, which the arm passes and the key refuses.  With
      `locks` false the arm reads without its FOR NO KEY UPDATE: the arm as it stood
      before ruling R-CC96. */
  function Arrive(s: System, t: nat, m: nat, value: Movement, locks: bool): System
    requires t in s.open
  {
    var x := s.open[t];
    var v := View(s.committed, x);
    if value.row !in v.rows then Put(s, t, Fail(x))
    else if locks && !RowFree(s, t, value.row) then s
    else if v.rows[value.row].hidden then
      Put(s, t, Fail(x.(rowLocks := if locks then x.rowLocks + {value.row} else x.rowLocks)))
    else
      Put(s, t, x.(movements := x.movements[m := Some(value)],
                   movementLocks := x.movementLocks + {m},
                   rowLocks := if locks then x.rowLocks + {value.row} else x.rowLocks))
  }

  function WriteMovement(s: System, t: nat, m: nat, value: Movement, insert: bool, locks: bool): System
    requires t in s.open
  {
    var x := s.open[t];
    var v := View(s.committed, x);
    if !MovementFree(s, t, m) then s
    else if insert then
      if m in v.movements then Put(s, t, Fail(x)) else Arrive(s, t, m, value, locks)
    else if m !in v.movements then s
    else if v.movements[m].row == value.row then
      Put(s, t, x.(movements := x.movements[m := Some(value)], movementLocks := x.movementLocks + {m}))
    else
      Arrive(s, t, m, value, locks)
  }

  /** An UPDATE naming is_deleted or transfer_id: the hiding arm queues a check when its WHEN holds. */
  function WriteRow(s: System, t: nat, r: nat, row: Row): System
    requires t in s.open
  {
    var x := s.open[t];
    if !RowFree(s, t, r) || r !in View(s.committed, x).rows then s
    else
      Put(s, t, x.(rows := x.rows[r := Some(row)], rowLocks := x.rowLocks + {r},
                   queue := if MustHoldNothing(row) then x.queue + {r} else x.queue))
  }

  /** A row's INSERT fires neither arm, whatever state it is born in. */
  function AddRow(s: System, t: nat, r: nat, row: Row): System
    requires t in s.open
  {
    var x := s.open[t];
    if !RowFree(s, t, r) then s
    else if r in View(s.committed, x).rows then Put(s, t, Fail(x))
    else Put(s, t, x.(rows := x.rows[r := Some(row)], rowLocks := x.rowLocks + {r}))
  }

  /** A row's DELETE: the movements' foreign key declares no action, so a held row is refused. */
  function RemoveRow(s: System, t: nat, r: nat): System
    requires t in s.open
  {
    var x := s.open[t];
    var v := View(s.committed, x);
    if !RowFree(s, t, r) || r !in v.rows then s
    else if Holds(v, r) then Put(s, t, Fail(x.(rowLocks := x.rowLocks + {r})))
    else Put(s, t, x.(rows := x.rows[r := None], rowLocks := x.rowLocks + {r}))
  }

  function RemoveMovement(s: System, t: nat, m: nat): System
    requires t in s.open
  {
    var x := s.open[t];
    if !MovementFree(s, t, m) || m !in View(s.committed, x).movements then s
    else Put(s, t, x.(movements := x.movements[m := None], movementLocks := x.movementLocks + {m}))
  }

  /** One deferred check, run at commit on the row as it stands then. */
  function Check(s: System, t: nat, r: nat): System
    requires t in s.open
  {
    var x := s.open[t];
    if HidingArmRefuses(View(s.committed, x), r) then Put(s, t, Fail(x))
    else Put(s, t, x.(queue := x.queue - {r}))
  }

  function Step(s: System, a: Action, locks: bool): System {
    match a
    case Begin(t) =>
      if t in s.open then s else Put(s, t, Txn(Active, map[], map[], {}, {}, {}))
    case InsertMovement(t, m, value) =>
      if Running(s, t) then WriteMovement(s, t, m, value, true, locks) else s
    case UpdateMovement(t, m, value) =>
      if Running(s, t) then WriteMovement(s, t, m, value, false, locks) else s
    case DeleteMovement(t, m) => if Running(s, t) then RemoveMovement(s, t, m) else s
    case InsertRow(t, r, row) => if Running(s, t) then AddRow(s, t, r, row) else s
    case UpdateRow(t, r, row) => if Running(s, t) then WriteRow(s, t, r, row) else s
    case DeleteRow(t, r) => if Running(s, t) then RemoveRow(s, t, r) else s
    case StartCommit(t) =>
      if Running(s, t) then Put(s, t, s.open[t].(phase := Committing)) else s
    case RunCheck(t, r) =>
      if t in s.open && s.open[t].phase.Committing? && r in s.open[t].queue then Check(s, t, r) else s
    case Publish(t) =>
      if t in s.open && s.open[t].phase.Committing? && s.open[t].queue == {}
      then System(View(s.committed, s.open[t]), s.open - {t}) else s
    case Rollback(t) => s.(open := s.open - {t})
  }

  /** Any interleaving: the actions name their transactions and come in any order. */
  function Run(s: System, actions: seq<Action>, locks: bool): System
    decreases |actions|
  {
    if actions == [] then s else Run(Step(s, actions[0], locks), actions[1..], locks)
  }

  /** A run is its actions one after another. */
  lemma {:induction false} ARunIsItsActionsInTurn(s: System, actions: seq<Action>, a: Action, locks: bool)
    ensures Run(s, [], locks) == s
    ensures Run(s, actions + [a], locks) == Step(Run(s, actions, locks), a, locks)
    decreases |actions|
  {
    if actions == [] {
      assert ([a] + [])[1..] == [];
    } else {
      assert (actions + [a])[1..] == actions[1..] + [a];
      ARunIsItsActionsInTurn(Step(s, actions[0], locks), actions[1..], a, locks);
    }
  }

  // ---------------------------------------------------------------- the invariant

  /** A movement written by x is under a row x has locked, or where the committed store already had it. */
  predicate Anchored(committed: Store, x: Txn, m: nat)
    requires m in x.movements && x.movements[m].Some?
  {
    var r := x.movements[m].value.row;
    r in x.rowLocks || (m in committed.movements && committed.movements[m].row == r)
  }

  /** Everything forbidden that x would publish is queued to be checked. */
  ghost predicate Accounted(v: Store, queue: set<nat>) {
    forall m :: m in v.movements ==>
      var r := v.movements[m].row;
      r in v.rows && (MustHoldNothing(v.rows[r]) ==> r in queue)
  }

  ghost predicate TxnOk(committed: Store, x: Txn) {
    && x.rows.Keys <= x.rowLocks
    && x.movements.Keys <= x.movementLocks
    && (forall m :: m in x.movements && x.movements[m].Some? ==> Anchored(committed, x, m))
    && Accounted(View(committed, x), x.queue)
  }

  ghost predicate Apart(x: Txn, y: Txn) {
    x.rowLocks !! y.rowLocks && x.movementLocks !! y.movementLocks
  }

  ghost predicate Inv(s: System) {
    && Clean(s.committed)
    && (forall t :: t in s.open ==> TxnOk(s.committed, s.open[t]))
    && (forall t, u :: t in s.open && u in s.open && t != u ==> Apart(s.open[t], s.open[u]))
  }

  lemma OverlayPut<V>(base: map<nat, V>, writes: map<nat, Option<V>>, k: nat, value: Option<V>)
    ensures Overlay(base, writes[k := value]) ==
      if value.Some? then Overlay(base, writes)[k := value.value] else Overlay(base, writes) - {k}
  {
  }

  /** A transaction's movement write reads back as that write and nothing else. */
  lemma ViewAfterMovement(committed: Store, x: Txn, y: Txn, m: nat, value: Option<Movement>)
    requires y.rows == x.rows && y.movements == x.movements[m := value]
    ensures View(committed, y).rows == View(committed, x).rows
    ensures View(committed, y).movements ==
      if value.Some? then View(committed, x).movements[m := value.value]
      else View(committed, x).movements - {m}
  {
    OverlayPut(committed.movements, x.movements, m, value);
  }

  lemma ViewAfterRow(committed: Store, x: Txn, y: Txn, r: nat, row: Option<Row>)
    requires y.movements == x.movements && y.rows == x.rows[r := row]
    ensures View(committed, y).movements == View(committed, x).movements
    ensures View(committed, y).rows ==
      if row.Some? then View(committed, x).rows[r := row.value] else View(committed, x).rows - {r}
  {
    OverlayPut(committed.rows, x.rows, r, row);
  }

  /** A movement may be written under a row that need not be empty, once that row is locked
      or already held it. */
  lemma MovementSound(committed: Store, x: Txn, y: Txn, m: nat, value: Movement)
    requires TxnOk(committed, x)
    requires y.rows == x.rows && y.movements == x.movements[m := Some(value)] && y.queue == x.queue
    requires x.rowLocks <= y.rowLocks && x.movementLocks + {m} <= y.movementLocks
    requires Anchored(committed, y, m)
    requires value.row in View(committed, x).rows
    requires MustHoldNothing(View(committed, x).rows[value.row]) ==> value.row in x.queue
    ensures TxnOk(committed, y)
  {
    ViewAfterMovement(committed, x, y, m, Some(value));
    forall k | k in y.movements && y.movements[k].Some?
      ensures Anchored(committed, y, k)
    {
      if k != m { assert Anchored(committed, x, k); }
    }
  }

  lemma RowSound(committed: Store, x: Txn, y: Txn, r: nat, row: Option<Row>)
    requires TxnOk(committed, x)
    requires y.movements == x.movements && y.rows == x.rows[r := row]
    requires x.rowLocks + {r} <= y.rowLocks && y.movementLocks == x.movementLocks
    requires x.queue <= y.queue
    requires row.Some? && MustHoldNothing(row.value) ==> r in y.queue || r !in View(committed, x).rows
    requires row.None? ==> !Holds(View(committed, x), r)
    ensures TxnOk(committed, y)
  {
    ViewAfterRow(committed, x, y, r, row);
    forall k | k in y.movements && y.movements[k].Some?
      ensures Anchored(committed, y, k)
    {
      assert Anchored(committed, x, k);
    }
  }

  /** Replacing one transaction's record keeps the invariant when the new record is sound. */
  lemma PutKeeps(s: System, t: nat, x: Txn)
    requires Inv(s) && TxnOk(s.committed, x)
    requires forall u :: u in s.open && u != t ==> Apart(x, s.open[u])
    ensures Inv(Put(s, t, x))
  {
    var s' := Put(s, t, x);
    forall u, w | u in s'.open && w in s'.open && u != w
      ensures Apart(s'.open[u], s'.open[w])
    {
      if u == t {
        assert Apart(x, s.open[w]);
      } else if w == t {
        assert Apart(x, s.open[u]);
      }
    }
  }

  lemma FailKeeps(s: System, t: nat, x: Txn)
    requires Inv(s) && t in s.open
    requires forall u :: u in s.open && u != t ==> Apart(x, s.open[u])
    ensures Inv(Put(s, t, Fail(x)))
  {
    assert View(s.committed, Fail(x)) == s.committed;
    PutKeeps(s, t, Fail(x));
  }

  lemma ArriveKeeps(s: System, t: nat, m: nat, value: Movement)
    requires Inv(s) && t in s.open && MovementFree(s, t, m)
    ensures Inv(Arrive(s, t, m, value, true))
  {
    var x := s.open[t];
    var v := View(s.committed, x);
    if value.row !in v.rows {
      FailKeeps(s, t, x);
    } else if RowFree(s, t, value.row) {
      if v.rows[value.row].hidden {
        FailKeeps(s, t, x.(rowLocks := x.rowLocks + {value.row}));
      } else {
        var y := x.(movements := x.movements[m := Some(value)],
                    movementLocks := x.movementLocks + {m},
                    rowLocks := x.rowLocks + {value.row});
        MovementSound(s.committed, x, y, m, value);
        PutKeeps(s, t, y);
      }
    }
  }

  lemma ResaveKeeps(s: System, t: nat, m: nat, value: Movement)
    requires Inv(s) && t in s.open && MovementFree(s, t, m)
    requires m in View(s.committed, s.open[t]).movements
    requires View(s.committed, s.open[t]).movements[m].row == value.row
    ensures Inv(WriteMovement(s, t, m, value, false, true))
  {
    var x := s.open[t];
    var y := x.(movements := x.movements[m := Some(value)], movementLocks := x.movementLocks + {m});
    if m in x.movements { assert Anchored(s.committed, x, m); }
    MovementSound(s.committed, x, y, m, value);
    PutKeeps(s, t, y);
  }

  lemma WriteMovementKeeps(s: System, t: nat, m: nat, value: Movement, insert: bool)
    requires Inv(s) && t in s.open
    ensures Inv(WriteMovement(s, t, m, value, insert, true))
  {
    var v := View(s.committed, s.open[t]);
    if MovementFree(s, t, m) {
      if insert && m in v.movements {
        FailKeeps(s, t, s.open[t]);
      } else if insert || (m in v.movements && v.movements[m].row != value.row) {
        ArriveKeeps(s, t, m, value);
      } else if m in v.movements {
        ResaveKeeps(s, t, m, value);
      }
    }
  }

  lemma WriteRowKeeps(s: System, t: nat, r: nat, row: Row)
    requires Inv(s) && t in s.open
    ensures Inv(WriteRow(s, t, r, row))
  {
    var x := s.open[t];
    if RowFree(s, t, r) && r in View(s.committed, x).rows {
      var y := x.(rows := x.rows[r := Some(row)], rowLocks := x.rowLocks + {r},
                  queue := if MustHoldNothing(row) then x.queue + {r} else x.queue);
      RowSound(s.committed, x, y, r, Some(row));
      PutKeeps(s, t, y);
    }
  }

  lemma AddRowKeeps(s: System, t: nat, r: nat, row: Row)
    requires Inv(s) && t in s.open
    ensures Inv(AddRow(s, t, r, row))
  {
    var x := s.open[t];
    if RowFree(s, t, r) {
      if r in View(s.committed, x).rows {
        FailKeeps(s, t, x);
      } else {
        var y := x.(rows := x.rows[r := Some(row)], rowLocks := x.rowLocks + {r});
        RowSound(s.committed, x, y, r, Some(row));
        PutKeeps(s, t, y);
      }
    }
  }

  lemma RemoveRowKeeps(s: System, t: nat, r: nat)
    requires Inv(s) && t in s.open
    ensures Inv(RemoveRow(s, t, r))
  {
    var x := s.open[t];
    var v := View(s.committed, x);
    if RowFree(s, t, r) && r in v.rows {
      if Holds(v, r) {
        FailKeeps(s, t, x.(rowLocks := x.rowLocks + {r}));
      } else {
        var y := x.(rows := x.rows[r := None], rowLocks := x.rowLocks + {r});
        RowSound(s.committed, x, y, r, None);
        PutKeeps(s, t, y);
      }
    }
  }

  lemma RemoveMovementKeeps(s: System, t: nat, m: nat)
    requires Inv(s) && t in s.open
    ensures Inv(RemoveMovement(s, t, m))
  {
    var x := s.open[t];
    if MovementFree(s, t, m) && m in View(s.committed, x).movements {
      var y := x.(movements := x.movements[m := None], movementLocks := x.movementLocks + {m});
      ViewAfterMovement(s.committed, x, y, m, None);
      forall k | k in y.movements && y.movements[k].Some?
        ensures Anchored(s.committed, y, k)
      {
        assert Anchored(s.committed, x, k);
      }
      PutKeeps(s, t, y);
    }
  }

  lemma CheckKeeps(s: System, t: nat, r: nat)
    requires Inv(s) && t in s.open
    ensures Inv(Check(s, t, r))
  {
    var x := s.open[t];
    var v := View(s.committed, x);
    if HidingArmRefuses(v, r) {
      FailKeeps(s, t, x);
    } else {
      var y := x.(queue := x.queue - {r});
      assert View(s.committed, y) == v;
      PutKeeps(s, t, y);
    }
  }

  /** The heart of the rule: a publish by x cannot leave anything forbidden in the view of y.
      Were there a movement m under row r there, x or y would hold a lock the other one needed. */
  lemma PublishLeavesOthersSound(committed: Store, x: Txn, y: Txn)
    requires TxnOk(committed, x) && TxnOk(committed, y) && Apart(x, y)
    requires x.queue == {}
    ensures TxnOk(View(committed, x), y)
  {
    var after := View(committed, x);
    var before := View(committed, y);
    var now := View(after, y);
    forall m | m in y.movements && y.movements[m].Some?
      ensures Anchored(after, y, m)
    {
      assert Anchored(committed, y, m) && m !in x.movements;
    }
    forall m | m in now.movements
      ensures now.movements[m].row in now.rows
      ensures MustHoldNothing(now.rows[now.movements[m].row]) ==> now.movements[m].row in y.queue
    {
      var r := now.movements[m].row;
      if m in y.movements {
        assert Anchored(committed, y, m) && m in before.movements;
        if r in x.rows {
          assert m in after.movements && after.movements[m].row == r;
        }
      } else {
        assert m in after.movements;
        if m in x.movements {
          assert Anchored(committed, x, m);
          if r in y.rows {
            assert m in committed.movements && m in before.movements;
          }
        } else {
          assert m in before.movements;
        }
      }
    }
  }

  lemma PublishKeeps(s: System, t: nat)
    requires Inv(s) && t in s.open && s.open[t].queue == {}
    ensures Inv(System(View(s.committed, s.open[t]), s.open - {t}))
  {
    forall u | u in s.open && u != t
      ensures TxnOk(View(s.committed, s.open[t]), s.open[u])
    {
      PublishLeavesOthersSound(s.committed, s.open[t], s.open[u]);
    }
  }

  lemma StepKeeps(s: System, a: Action)
    requires Inv(s)
    ensures Inv(Step(s, a, true))
  {
    match a
    case Begin(t) =>
      if t !in s.open {
        var x := Txn(Active, map[], map[], {}, {}, {});
        assert View(s.committed, x) == s.committed;
        PutKeeps(s, t, x);
      }
    case InsertMovement(t, m, value) => if Running(s, t) { WriteMovementKeeps(s, t, m, value, true); }
    case UpdateMovement(t, m, value) => if Running(s, t) { WriteMovementKeeps(s, t, m, value, false); }
    case DeleteMovement(t, m) => if Running(s, t) { RemoveMovementKeeps(s, t, m); }
    case InsertRow(t, r, row) => if Running(s, t) { AddRowKeeps(s, t, r, row); }
    case UpdateRow(t, r, row) => if Running(s, t) { WriteRowKeeps(s, t, r, row); }
    case DeleteRow(t, r) => if Running(s, t) { RemoveRowKeeps(s, t, r); }
    case StartCommit(t) =>
      if Running(s, t) {
        var y := s.open[t].(phase := Committing);
        assert View(s.committed, y) == View(s.committed, s.open[t]);
        PutKeeps(s, t, y);
      }
    case RunCheck(t, r) => if t in s.open { CheckKeeps(s, t, r); }
    case Publish(t) => if t in s.open && s.open[t].queue == {} { PublishKeeps(s, t); }
    case Rollback(t) =>
  }

  lemma {:induction false} RunKeeps(s: System, actions: seq<Action>)
    requires Inv(s)
    ensures Inv(Run(s, actions, true))
    decreases |actions|
  {
    if actions == [] {
    } else {
      StepKeeps(s, actions[0]);
      RunKeeps(Step(s, actions[0], true), actions[1..]);
    }
  }

  /** Over every interleaving, no committed state holds a movement under a hidden non-transfer row. */
  lemma NoMoneyUnderADeletedRow(start: Store, actions: seq<Action>)
    requires Clean(start)
    ensures Clean(Run(System(start, map[]), actions, true).committed)
  {
    RunKeeps(System(start, map[]), actions);
  }

  // ---------------------------------------------------------------- what each action does

  /** Nothing but transaction t's own record has moved. */
  ghost predicate OnlyMoves(s: System, s': System, t: nat) {
    && s'.committed == s.committed && t in s.open && t in s'.open
    && (forall u :: u != t ==> (u in s'.open <==> u in s.open))
    && (forall u :: u != t && u in s.open ==> s'.open[u] == s.open[u])
  }

  /** The transaction has raised: it sees the committed store, has nothing queued, keeps its locks. */
  ghost predicate Raised(s: System, s': System, t: nat) {
    && OnlyMoves(s, s', t)
    && s'.open[t].phase == Failed && View(s.committed, s'.open[t]) == s.committed && s'.open[t].queue == {}
    && s.open[t].rowLocks <= s'.open[t].rowLocks && s.open[t].movementLocks <= s'.open[t].movementLocks
  }

  /** The transaction goes on, seeing this, with these locks besides its own and these checks queued. */
  ghost predicate GoesOn(s: System, s': System, t: nat, seen: Store,
                         rows: set<nat>, movements: set<nat>, queue: set<nat>)
  {
    && OnlyMoves(s, s', t)
    && s'.open[t].phase == s.open[t].phase && View(s.committed, s'.open[t]) == seen
    && s'.open[t].rowLocks == s.open[t].rowLocks + rows
    && s'.open[t].movementLocks == s.open[t].movementLocks + movements && s'.open[t].queue == queue
  }

  lemma NothingWrittenNothingOverlaid(committed: Store, x: Txn)
    requires x.rows == map[] && x.movements == map[]
    ensures View(committed, x) == committed
  {
    assert Overlay(committed.rows, x.rows) == committed.rows;
    assert Overlay(committed.movements, x.movements) == committed.movements;
  }

  predicate Locked(s: System, t: nat, row: nat) {
    exists u :: u in s.open && u != t && row in s.open[u].rowLocks
  }

  predicate MovementLocked(s: System, t: nat, m: nat) {
    exists u :: u in s.open && u != t && m in s.open[u].movementLocks
  }

  /** An insert of a movement waits while another transaction holds its id or its row.  Otherwise it
      is refused exactly when the id is taken, the row is absent, or the row is deleted, whatever
      its transfer; and what is not refused stores that movement and nothing else, its row locked. */
  lemma AnInsertIsRefusedExactlyWhen(s: System, t: nat, m: nat, value: Movement)
    requires t in s.open && s.open[t].phase == Active && !MovementLocked(s, t, m)
    ensures var v, s' := View(s.committed, s.open[t]), Step(s, InsertMovement(t, m, value), true);
      if m in v.movements || value.row !in v.rows then Raised(s, s', t)
      else if Locked(s, t, value.row) then s' == s
      else if v.rows[value.row].hidden then Raised(s, s', t) && value.row in s'.open[t].rowLocks
      else GoesOn(s, s', t, v.(movements := v.movements[m := value]), {value.row}, {m}, s.open[t].queue)
  {
    var x, v, s' := s.open[t], View(s.committed, s.open[t]), Step(s, InsertMovement(t, m, value), true);
    NothingWrittenNothingOverlaid(s.committed, Fail(x));
    NothingWrittenNothingOverlaid(s.committed, Fail(x.(rowLocks := x.rowLocks + {value.row})));
    if m !in v.movements && value.row in v.rows && !Locked(s, t, value.row) && !v.rows[value.row].hidden {
      ViewAfterMovement(s.committed, x, s'.open[t], m, Some(value));
    }
  }

  /** An update pointing a movement at another row is an arrival like an insert. */
  lemma ARepointIsRefusedExactlyWhen(s: System, t: nat, m: nat, value: Movement)
    requires t in s.open && s.open[t].phase == Active && !MovementLocked(s, t, m)
    requires var v := View(s.committed, s.open[t]); m in v.movements && v.movements[m].row != value.row
    ensures var v, s' := View(s.committed, s.open[t]), Step(s, UpdateMovement(t, m, value), true);
      if value.row !in v.rows then Raised(s, s', t)
      else if Locked(s, t, value.row) then s' == s
      else if v.rows[value.row].hidden then Raised(s, s', t) && value.row in s'.open[t].rowLocks
      else GoesOn(s, s', t, v.(movements := v.movements[m := value]), {value.row}, {m}, s.open[t].queue)
  {
    var x, v, s' := s.open[t], View(s.committed, s.open[t]), Step(s, UpdateMovement(t, m, value), true);
    NothingWrittenNothingOverlaid(s.committed, Fail(x));
    NothingWrittenNothingOverlaid(s.committed, Fail(x.(rowLocks := x.rowLocks + {value.row})));
    if value.row in v.rows && !Locked(s, t, value.row) && !v.rows[value.row].hidden {
      ViewAfterMovement(s.committed, x, s'.open[t], m, Some(value));
    }
  }

  /** Re-saving a movement where it is is never refused, even under a deleted row, and locks no row. */
  lemma AResaveIsNeverRefused(s: System, t: nat, m: nat, value: Movement)
    requires t in s.open && s.open[t].phase == Active && !MovementLocked(s, t, m)
    requires var v := View(s.committed, s.open[t]); m in v.movements && v.movements[m].row == value.row
    ensures var v, s' := View(s.committed, s.open[t]), Step(s, UpdateMovement(t, m, value), true);
      GoesOn(s, s', t, v.(movements := v.movements[m := value]), {}, {m}, s.open[t].queue)
  {
    ViewAfterMovement(s.committed, s.open[t], Step(s, UpdateMovement(t, m, value), true).open[t], m, Some(value));
  }

  /** A write of a movement another transaction holds waits. */
  lemma AHeldMovementWaits(s: System, t: nat, m: nat, value: Movement)
    requires MovementLocked(s, t, m)
    ensures Step(s, InsertMovement(t, m, value), true) == s
    ensures Step(s, UpdateMovement(t, m, value), true) == s
    ensures Step(s, DeleteMovement(t, m), true) == s
  {
  }

  lemma ADeletedMovementIsGone(s: System, t: nat, m: nat)
    requires t in s.open && s.open[t].phase == Active && !MovementLocked(s, t, m)
    ensures var v, s' := View(s.committed, s.open[t]), Step(s, DeleteMovement(t, m), true);
      if m !in v.movements then s' == s
      else GoesOn(s, s', t, v.(movements := v.movements - {m}), {}, {m}, s.open[t].queue)
  {
    if m in View(s.committed, s.open[t]).movements {
      ViewAfterMovement(s.committed, s.open[t], Step(s, DeleteMovement(t, m), true).open[t], m, None);
    }
  }

  /** An update of a row queues the check exactly when it leaves a deleted row with no transfer. */
  lemma AnUpdatedRowIsAsWritten(s: System, t: nat, r: nat, row: Row)
    requires t in s.open && s.open[t].phase == Active
    ensures var x, v, s' := s.open[t], View(s.committed, s.open[t]), Step(s, UpdateRow(t, r, row), true);
      if Locked(s, t, r) || r !in v.rows then s' == s
      else GoesOn(s, s', t, v.(rows := v.rows[r := row]), {r}, {},
                  if row.hidden && row.transfer == None then x.queue + {r} else x.queue)
  {
    if !Locked(s, t, r) && r in View(s.committed, s.open[t]).rows {
      ViewAfterRow(s.committed, s.open[t], Step(s, UpdateRow(t, r, row), true).open[t], r, Some(row));
    }
  }

  lemma AnInsertedRowIsAsWritten(s: System, t: nat, r: nat, row: Row)
    requires t in s.open && s.open[t].phase == Active
    ensures var v, s' := View(s.committed, s.open[t]), Step(s, InsertRow(t, r, row), true);
      if Locked(s, t, r) then s' == s
      else if r in v.rows then Raised(s, s', t)
      else GoesOn(s, s', t, v.(rows := v.rows[r := row]), {r}, {}, s.open[t].queue)
  {
    NothingWrittenNothingOverlaid(s.committed, Fail(s.open[t]));
    if !Locked(s, t, r) && r !in View(s.committed, s.open[t]).rows {
      ViewAfterRow(s.committed, s.open[t], Step(s, InsertRow(t, r, row), true).open[t], r, Some(row));
    }
  }

  /** A row that holds a movement is not deleted. */
  lemma ARemovedRowHeldNothing(s: System, t: nat, r: nat)
    requires t in s.open && s.open[t].phase == Active
    ensures var v, s' := View(s.committed, s.open[t]), Step(s, DeleteRow(t, r), true);
      if Locked(s, t, r) || r !in v.rows then s' == s
      else if exists m :: m in v.movements && v.movements[m].row == r then
        Raised(s, s', t) && r in s'.open[t].rowLocks
      else GoesOn(s, s', t, v.(rows := v.rows - {r}), {r}, {}, s.open[t].queue)
  {
    var x, v, s' := s.open[t], View(s.committed, s.open[t]), Step(s, DeleteRow(t, r), true);
    NothingWrittenNothingOverlaid(s.committed, Fail(x.(rowLocks := x.rowLocks + {r})));
    if !Locked(s, t, r) && r in v.rows && !Holds(v, r) {
      ViewAfterRow(s.committed, x, s'.open[t], r, None);
    }
  }

  /** The commit's check refuses a deleted row with no transfer that holds a movement, and no other. */
  lemma ACheckRefusesExactlyWhen(s: System, t: nat, r: nat)
    requires t in s.open && s.open[t].phase == Committing && r in s.open[t].queue
    ensures var x, v, s' := s.open[t], View(s.committed, s.open[t]), Step(s, RunCheck(t, r), true);
      if r in v.rows && v.rows[r].hidden && v.rows[r].transfer == None
         && (exists m :: m in v.movements && v.movements[m].row == r)
      then Raised(s, s', t)
      else GoesOn(s, s', t, v, {}, {}, x.queue - {r})
  {
    NothingWrittenNothingOverlaid(s.committed, Fail(s.open[t]));
  }

  /** A check is run for a commit alone, and for no row but those queued. */
  lemma ACheckIsRunForACommit(s: System, t: nat, r: nat)
    requires t in s.open ==> s.open[t].phase != Committing || r !in s.open[t].queue
    ensures Step(s, RunCheck(t, r), true) == s
  {
  }

  /** Once it has raised, or begun to commit, a transaction runs no statement. */
  lemma OnlyAnActiveTransactionWrites(s: System, t: nat, k: nat, value: Movement, row: Row)
    requires t in s.open ==> s.open[t].phase != Active
    ensures Step(s, InsertMovement(t, k, value), true) == s && Step(s, UpdateMovement(t, k, value), true) == s
    ensures Step(s, DeleteMovement(t, k), true) == s && Step(s, InsertRow(t, k, row), true) == s
    ensures Step(s, UpdateRow(t, k, row), true) == s && Step(s, DeleteRow(t, k), true) == s
    ensures Step(s, StartCommit(t), true) == s
  {
  }

  /** A transaction begins with nothing; it publishes all it saw once nothing is queued; a rollback
      leaves no trace of it. */
  lemma TransactionsBeginAndEnd(s: System, t: nat)
    ensures var b := Step(s, Begin(t), true);
      t !in s.open ==>
        b.committed == s.committed && b.open == s.open[t := IDLE] && View(s.committed, IDLE) == s.committed
    ensures t in s.open ==> Step(s, Begin(t), true) == s
    ensures t in s.open && s.open[t].phase == Active ==>
      Step(s, StartCommit(t), true) == s.(open := s.open[t := s.open[t].(phase := Committing)])
    ensures var p := Step(s, Publish(t), true);
      if t in s.open && s.open[t].phase == Committing && s.open[t].queue == {}
      then p == System(View(s.committed, s.open[t]), s.open - {t}) else p == s
    ensures Step(s, Rollback(t), true) == System(s.committed, s.open - {t})
  {
    NothingWrittenNothingOverlaid(s.committed, IDLE);
  }

  // ---------------------------------------------------------------- exactness and necessity

  /** A whole commit taken at once: every queued check, then the publish. */
  function CommitNow(s: System, t: nat): System
    requires t in s.open
  {
    var v := View(s.committed, s.open[t]);
    if exists r :: r in s.open[t].queue && HidingArmRefuses(v, r)
    then Put(s, t, Fail(s.open[t].(phase := Committing)))
    else System(v, s.open - {t})
  }

  /** It publishes the whole view, or fails the transaction when a queued row is left hidden with no
      transfer and a movement under it. */
  lemma CommitNowIsAllOrNothing(s: System, t: nat)
    requires t in s.open
    ensures var v, after := View(s.committed, s.open[t]), CommitNow(s, t);
      if exists m :: m in v.movements && v.movements[m].row in s.open[t].queue && v.movements[m].row in v.rows
                     && v.rows[v.movements[m].row].hidden && v.rows[v.movements[m].row].transfer == None
      then Raised(s, after, t)
      else after == System(v, s.open - {t})
  {
    var v := View(s.committed, s.open[t]);
    if m :| m in v.movements && v.movements[m].row in s.open[t].queue && v.movements[m].row in v.rows
            && v.rows[v.movements[m].row].hidden && v.rows[v.movements[m].row].transfer == None {
      assert HidingArmRefuses(v, v.movements[m].row);
    }
  }

  /** The rule refuses nothing else: a save commits exactly when what it would store is clean.  In
      particular a save that takes the money off and hides the row, in either order, commits. */
  lemma CommitIsExact(s: System, t: nat)
    requires Inv(s) && Running(s, t)
    ensures t !in CommitNow(s, t).open <==> Clean(View(s.committed, s.open[t]))
    ensures t !in CommitNow(s, t).open ==>
      CommitNow(s, t).committed == View(s.committed, s.open[t])
  {
    var v := View(s.committed, s.open[t]);
    if r :| r in s.open[t].queue && HidingArmRefuses(v, r) {
      var m :| m in v.movements && v.movements[m].row == r;
    } else {
      forall m | m in v.movements
        ensures v.movements[m].row in v.rows && !MustHoldNothing(v.rows[v.movements[m].row])
      {
        assert Holds(v, v.movements[m].row);
      }
    }
  }

  lemma CommitNowKeeps(s: System, t: nat)
    requires Inv(s) && Running(s, t)
    ensures Inv(CommitNow(s, t))
  {
    var x := s.open[t].(phase := Committing);
    var v := View(s.committed, s.open[t]);
    if exists r :: r in x.queue && HidingArmRefuses(v, r) {
      FailKeeps(s, t, x);
    } else {
      var done := x.(queue := {});
      assert View(s.committed, done) == v;
      CommitIsExact(s, t);
      PutKeeps(s, t, done);
      var s' := Put(s, t, done);
      PublishKeeps(s', t);
      assert s'.open - {t} == s.open - {t};
    }
  }

  /** A purchase of row 0 and a hide of it, open at once: the buyer's record and the hider's. */
  const IDLE := Txn(Active, map[], map[], {}, {}, {})
  const BUYER := IDLE.(movements := map[5 := Some(Movement(0, 1234))], movementLocks := {5})
  const HIDER := IDLE.(rows := map[0 := Some(Row(true, None))], rowLocks := {0}, queue := {0})
  const LIVE := Store(map[0 := Row(false, None)], map[])
  const RACE_OPENS := [Begin(1), InsertMovement(1, 5, Movement(0, 1234)), Begin(2), UpdateRow(2, 0, Row(true, None))]
  const HIDER_ENDS := [StartCommit(2), RunCheck(2, 0), Publish(2)]
  const BUYER_ENDS := [StartCommit(1), Publish(1)]

  /** Without the arrival arm's lock the rule is false: a purchase is added while another
      transaction hides its row, and both commit. */
  lemma WithoutTheLockARaceHidesMoney()
    ensures Clean(LIVE)
    ensures !Clean(Run(System(LIVE, map[]), RACE_OPENS + HIDER_ENDS + BUYER_ENDS, false).committed)
  {
    RaceOpens();
    TheHiderEnds();
    TheBuyerEnds();
    RunAppends(System(LIVE, map[]), RACE_OPENS, HIDER_ENDS, false);
    RunAppends(System(LIVE, map[]), RACE_OPENS + HIDER_ENDS, BUYER_ENDS, false);
  }

  lemma RaceOpens()
    ensures Run(System(LIVE, map[]), RACE_OPENS, false) == System(LIVE, map[1 := BUYER, 2 := HIDER])
  {
    var s0 := System(LIVE, map[]);
    assert View(LIVE, IDLE) == LIVE;
    var s1 := System(LIVE, map[1 := IDLE]);
    var s2 := System(LIVE, map[1 := BUYER]);
    var s3 := System(LIVE, map[1 := BUYER, 2 := IDLE]);
    var s4 := System(LIVE, map[1 := BUYER, 2 := HIDER]);
    assert Step(s1, RACE_OPENS[1], false) == s2 by { assert Step(s1, RACE_OPENS[1], false).open[1] == BUYER; }
    assert Step(s3, RACE_OPENS[3], false) == s4 by {
      assert RowFree(s3, 2, 0);
      assert Step(s3, RACE_OPENS[3], false).open[2] == HIDER;
    }
    RunUnfolds(s0, RACE_OPENS, [s1, s2, s3, s4]);
  }

  const HIDDEN := Store(map[0 := Row(true, None)], map[])
  const HIDER_CHECKED := HIDER.(phase := Committing, queue := {})

  /** The hider's check passes: the purchase is not committed yet. */
  lemma TheHiderCommits()
    ensures var s := System(LIVE, map[1 := BUYER, 2 := HIDER.(phase := Committing)]);
      && Step(s, RunCheck(2, 0), false) == System(LIVE, map[1 := BUYER, 2 := HIDER_CHECKED])
      && Step(System(LIVE, map[1 := BUYER, 2 := HIDER_CHECKED]), Publish(2), false) == System(HIDDEN, map[1 := BUYER])
  {
    assert View(LIVE, HIDER.(phase := Committing)) == View(LIVE, HIDER_CHECKED) == HIDDEN;
    assert HIDER.queue - {0} == {} && !Holds(HIDDEN, 0);
  }

  /** Nothing is queued for the buyer, whose purchase then stands under the hidden row. */
  lemma TheBuyerCommits()
    ensures var s := Step(System(HIDDEN, map[1 := BUYER.(phase := Committing)]), Publish(1), false);
      !Clean(s.committed)
  {
    var s := Step(System(HIDDEN, map[1 := BUYER.(phase := Committing)]), Publish(1), false);
    assert s.committed.movements[5] == Movement(0, 1234) && s.committed.rows[0] == Row(true, None);
  }

  lemma TheHiderEnds()
    ensures Run(System(LIVE, map[1 := BUYER, 2 := HIDER]), HIDER_ENDS, false) == System(HIDDEN, map[1 := BUYER])
  {
    TheHiderCommits();
    var s0 := System(LIVE, map[1 := BUYER, 2 := HIDER]);
    var s1 := System(LIVE, map[1 := BUYER, 2 := HIDER.(phase := Committing)]);
    var s2 := System(LIVE, map[1 := BUYER, 2 := HIDER_CHECKED]);
    RunUnfolds(s0, HIDER_ENDS, [s1, s2, System(HIDDEN, map[1 := BUYER])]);
  }

  lemma TheBuyerEnds()
    ensures !Clean(Run(System(HIDDEN, map[1 := BUYER]), BUYER_ENDS, false).committed)
  {
    TheBuyerCommits();
    var s0 := System(HIDDEN, map[1 := BUYER]);
    var s1 := System(HIDDEN, map[1 := BUYER.(phase := Committing)]);
    RunUnfolds(s0, BUYER_ENDS, [s1, Step(s1, Publish(1), false)]);
  }

  lemma {:induction false} RunAppends(s: System, before: seq<Action>, after: seq<Action>, locks: bool)
    ensures Run(s, before + after, locks) == Run(Run(s, before, locks), after, locks)
    decreases |before|
  {
    if before == [] {
      assert before + after == after;
    } else {
      assert (before + after)[1..] == before[1..] + after;
      RunAppends(Step(s, before[0], locks), before[1..], after, locks);
    }
  }

  /** A run is its states, one step apart. */
  lemma {:induction false} RunUnfolds(s: System, actions: seq<Action>, states: seq<System>)
    requires |states| == |actions| > 0
    requires states[0] == Step(s, actions[0], false)
    requires forall i :: 0 < i < |states| ==> states[i] == Step(states[i - 1], actions[i], false)
    ensures Run(s, actions, false) == states[|states| - 1]
    decreases |actions|
  {
    if |actions| == 1 {
      assert Run(states[0], actions[1..], false) == states[0];
    } else {
      RunUnfolds(states[0], actions[1..], states[1..]);
    }
  }

  // ---------------------------------------------------------------- the trigger bodies

  /** The two trigger bodies as they run, over the tables they read and write. */
  class Database {
    var committed: Store
    var open: map<nat, Txn>

    constructor (start: Store)
      requires Clean(start)
      ensures State() == System(start, map[]) && Inv(State())
    {
      committed, open := start, map[];
    }

    function State(): System
      reads this
    {
      System(committed, open)
    }

    method Raise(t: nat, x: Txn)
      requires t in open
      modifies this
      ensures State() == Put(old(State()), t, Fail(x))
    {
      open := open[t := x.(phase := Failed, rows := map[], movements := map[], queue := {})];
    }

    /** INSERT, or UPDATE OF transaction_id, on budget.transaction_entries. */
    method WriteAMovement(t: nat, m: nat, value: Movement, insert: bool)
      requires Inv(State()) && Running(State(), t)
      modifies this
      ensures State() == WriteMovement(old(State()), t, m, value, insert, true)
      ensures Inv(State())
    {
      WriteMovementKeeps(State(), t, m, value, insert);
      var x := open[t];
      var v := View(committed, x);
      if !MovementFree(State(), t, m) || (!insert && m !in v.movements) {
        return;
      }
      if insert && m in v.movements {
        Raise(t, x);
        return;
      }
      if insert || v.movements[m].row != value.row {
        var vHidden: Option<bool> := None;
        if value.row in v.rows {
          if !RowFree(State(), t, value.row) {
            return;
          }
          x := x.(rowLocks := x.rowLocks + {value.row});
          vHidden := Some(v.rows[value.row].hidden);
        }
        if vHidden == Some(true) || vHidden.None? {
          Raise(t, x);
          return;
        }
      }
      open := open[t := x.(movements := x.movements[m := Some(value)], movementLocks := x.movementLocks + {m})];
    }

    /** UPDATE OF is_deleted, transfer_id on budget.transactions, and the check it queues. */
    method UpdateARow(t: nat, r: nat, row: Row)
      requires Inv(State()) && Running(State(), t)
      modifies this
      ensures State() == WriteRow(old(State()), t, r, row)
      ensures Inv(State())
    {
      WriteRowKeeps(State(), t, r, row);
      var x := open[t];
      if RowFree(State(), t, r) && r in View(committed, x).rows {
        x := x.(rows := x.rows[r := Some(row)], rowLocks := x.rowLocks + {r});
        if row.hidden && row.transfer == None {
          x := x.(queue := x.queue + {r});
        }
        open := open[t := x];
      }
    }

    /** COMMIT: drain the queue, one check at a time, then publish. */
    method Commit(t: nat)
      requires Inv(State()) && Running(State(), t)
      modifies this
      ensures State() == CommitNow(old(State()), t)
      ensures Inv(State())
      ensures t !in open <==> Clean(View(old(committed), old(open[t])))
    {
      CommitIsExact(State(), t);
      CommitNowKeeps(State(), t);
      var x := open[t].(phase := Committing);
      var v := View(committed, x);
      var todo := x.queue;
      while todo != {}
        invariant todo <= x.queue && State() == old(State())
        invariant forall r :: r in x.queue - todo ==> !HidingArmRefuses(v, r)
        decreases todo
      {
        var r :| r in todo;
        if r in v.rows && v.rows[r].hidden && v.rows[r].transfer == None && Holds(v, r) {
          assert HidingArmRefuses(v, r);
          Raise(t, x);
          return;
        }
        todo := todo - {r};
      }
      committed, open := v, open - {t};
    }
  }
}
