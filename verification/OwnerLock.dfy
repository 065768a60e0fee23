/** Every signed-in command transaction under its data owner's write lock
    (app/db_transaction.py with app/services/user_write_lock.py).

    Any number of READ COMMITTED transactions interleave one database operation at a
    time.  A command is any program whose next operation depends on the answers it has
    had so far.  Before its lock a transaction may load only the signed-in user's own
    row, into the session's identity map; taking the lock expires that row. */
module OwnerLock {
  import opened Wrappers

  type Data = map<nat, int>
  type Store = map<nat, Data>

  /** Get reads a field, Put overwrites one, Post appends an amount to one (a ledger's sum). */
  datatype Op = Get(field: nat) | Put(field: nat, value: int) | Post(field: nat, amount: int) | Finish

  type Program = seq<int> -> Op

  /** `self` is the signed-in user's own row among the owner's data. */
  datatype Command = Command(owner: nat, self: nat, program: Program)

  datatype Write = Set(value: int) | Plus(amount: int)

  datatype Txn = Txn(
    command: Command,
    locked: bool,
    identity: Data,
    answers: seq<int>,
    writes: map<nat, Write>)

  datatype Committed = Committed(command: Command, answers: seq<int>)

  /** `granted` lists the transactions in the order the lock was granted to them. */
  datatype System = System(store: Store, open: map<nat, Txn>, granted: seq<nat>, done: map<nat, Committed>)

  /** What the module does: hold the lock to the transaction's end, expire the user's row. */
  datatype Guards = Guards(lock: bool, expire: bool)
  const AS_WRITTEN := Guards(true, true)

  datatype Action = Open(t: nat, command: Command) | LoadSelf(t: nat) | Lock(t: nat) | Operate(t: nat)
                  | Commit(t: nat) | Abort(t: nat)

  function Lookup(data: Data, f: nat): int {
    if f in data then data[f] else 0
  }

  function DataOf(store: Store, owner: nat): Data {
    if owner in store then store[owner] else map[]
  }

  function Landed(base: int, w: Write): int {
    match w case Set(v) => v case Plus(d) => base + d
  }

  function WithWrites(data: Data, writes: map<nat, Write>): Data {
    map f | f in data.Keys + writes.Keys
      :: if f in writes then Landed(Lookup(data, f), writes[f]) else data[f]
  }

  function Posted(writes: map<nat, Write>, f: nat, amount: int): Write {
    if f !in writes then Plus(amount)
    else match writes[f] case Set(v) => Set(v + amount) case Plus(d) => Plus(d + amount)
  }

  // ---------------------------------------------------------------- the interleaved system

  predicate LockFree(s: System, t: nat, owner: nat) {
    forall u :: u in s.open && u != t ==> !(s.open[u].locked && s.open[u].command.owner == owner)
  }

  /** One operation, on the data as the latest commits left it. */
  function OperateOn(data: Data, x: Txn): Txn {
    match x.command.program(x.answers)
    case Get(f) =>
      var seen := if f in x.identity then x.identity[f] else Lookup(WithWrites(data, x.writes), f);
      x.(answers := x.answers + [seen], identity := x.identity[f := seen])
    case Put(f, v) =>
      x.(answers := x.answers + [0], writes := x.writes[f := Set(v)], identity := x.identity[f := v])
    case Post(f, d) =>
      x.(answers := x.answers + [0], writes := x.writes[f := Posted(x.writes, f, d)],
         identity := x.identity - {f})
    case Finish => x
  }

  function Step(s: System, a: Action, g: Guards): System {
    match a
    case Open(t, command) =>
      if t in s.open || t in s.granted then s
      else s.(open := s.open[t := Txn(command, false, map[], [], map[])])
    case LoadSelf(t) =>
      if t in s.open && !s.open[t].locked then
        var x := s.open[t];
        var row := Lookup(DataOf(s.store, x.command.owner), x.command.self);
        s.(open := s.open[t := x.(identity := x.identity[x.command.self := row])])
      else s
    case Lock(t) =>
      if t in s.open && !s.open[t].locked && (g.lock ==> LockFree(s, t, s.open[t].command.owner)) then
        var x := s.open[t];
        s.(open := s.open[t := x.(locked := true,
                                 identity := if g.expire then x.identity - {x.command.self} else x.identity)],
           granted := s.granted + [t])
      else s
    case Operate(t) =>
      if t in s.open && s.open[t].locked then
        s.(open := s.open[t := OperateOn(DataOf(s.store, s.open[t].command.owner), s.open[t])])
      else s
    case Commit(t) =>
      if t in s.open && s.open[t].locked && s.open[t].command.program(s.open[t].answers).Finish? then
        var x := s.open[t];
        var data := DataOf(s.store, x.command.owner);
        System(s.store[x.command.owner := WithWrites(data, x.writes)], s.open - {t}, s.granted,
               s.done[t := Committed(x.command, x.answers)])
      else s
    case Abort(t) => s.(open := s.open - {t})
  }

  function Run(s: System, actions: seq<Action>, g: Guards): System
    decreases |actions|
  {
    if actions == [] then s else Run(Step(s, actions[0], g), actions[1..], g)
  }

  /** A run is its actions one after another. */
  lemma {:induction false} ARunIsItsActionsInTurn(s: System, actions: seq<Action>, a: Action, g: Guards)
    ensures Run(s, [], g) == s
    ensures Run(s, actions + [a], g) == Step(Run(s, actions, g), a, g)
    decreases |actions|
  {
    if actions == [] {
      assert ([a] + [])[1..] == [];
    } else {
      assert (actions + [a])[1..] == actions[1..] + [a];
      ARunIsItsActionsInTurn(Step(s, actions[0], g), actions[1..], a, g);
    }
  }

  // ---------------------------------------------------------------- the serial reference

  /** A command alone on the data: n operations from the start, its answers and the data it leaves. */
  function Alone(program: Program, data: Data, n: nat): (r: (seq<int>, Data)) {
    if n == 0 then ([], data)
    else
      var (answers, now) := Alone(program, data, n - 1);
      match program(answers)
      case Get(f) => (answers + [Lookup(now, f)], now)
      case Put(f, v) => (answers + [0], now[f := v])
      case Post(f, d) => (answers + [0], now[f := Lookup(now, f) + d])
      case Finish => (answers, now)
  }

  function ApplyAlone(store: Store, c: Committed): Store {
    store[c.command.owner := Alone(c.command.program, DataOf(store, c.command.owner), |c.answers|).1]
  }

  /** The committed commands one after another, in the order the lock was granted. */
  function Serial(start: Store, granted: seq<nat>, done: map<nat, Committed>): Store {
    if granted == [] then start
    else
      var last := granted[|granted| - 1];
      var before := Serial(start, granted[..|granted| - 1], done);
      if last in done then ApplyAlone(before, done[last]) else before
  }

  // ---------------------------------------------------------------- the invariant

  /** A locked transaction has done what its program would have done alone on the data as it stands. */
  ghost predicate OnCourse(store: Store, x: Txn) {
    var data := DataOf(store, x.command.owner);
    && Alone(x.command.program, data, |x.answers|) == (x.answers, WithWrites(data, x.writes))
    && (forall f :: f in x.identity ==> x.identity[f] == Lookup(WithWrites(data, x.writes), f))
  }

  /** t was granted its owner's lock at i, and no command of that owner granted later has committed. */
  ghost predicate HeldSince(s: System, t: nat, i: nat)
    requires t in s.open
  {
    && i < |s.granted| && s.granted[i] == t
    && (forall j :: i < j < |s.granted| && s.granted[j] in s.done ==>
          s.done[s.granted[j]].command.owner != s.open[t].command.owner)
  }

  /** A lock is granted once to a transaction, and a committed one was granted it and finished. */
  ghost predicate GrantedOnce(s: System) {
    && (forall i, j :: 0 <= i < j < |s.granted| ==> s.granted[i] != s.granted[j])
    && (forall t :: t in s.done ==>
          t in s.granted && t !in s.open && s.done[t].command.program(s.done[t].answers).Finish?)
  }

  /** Before its lock a transaction has read its own signed-in row at most. */
  ghost predicate Waiting(s: System) {
    forall t :: t in s.open && !s.open[t].locked ==>
      t !in s.granted && s.open[t].answers == [] && s.open[t].writes == map[]
      && s.open[t].identity.Keys <= {s.open[t].command.self}
  }

  ghost predicate Holding(s: System) {
    forall t :: t in s.open && s.open[t].locked ==>
      OnCourse(s.store, s.open[t]) && exists i: nat :: HeldSince(s, t, i)
  }

  ghost predicate OneHolderEach(s: System) {
    forall t, u :: t in s.open && u in s.open && t != u && s.open[t].locked && s.open[u].locked ==>
      s.open[t].command.owner != s.open[u].command.owner
  }

  ghost predicate Inv(start: Store, s: System) {
    s.store == Serial(start, s.granted, s.done) && GrantedOnce(s) && Waiting(s) && Holding(s) && OneHolderEach(s)
  }

  lemma WriteReadsBack(data: Data, writes: map<nat, Write>, f: nat, w: Write)
    ensures WithWrites(data, writes[f := w]) == WithWrites(data, writes)[f := Landed(Lookup(data, f), w)]
  {
  }

  lemma PostReadsBack(data: Data, writes: map<nat, Write>, f: nat, amount: int)
    ensures WithWrites(data, writes[f := Posted(writes, f, amount)])
         == WithWrites(data, writes)[f := Lookup(WithWrites(data, writes), f) + amount]
  {
    WriteReadsBack(data, writes, f, Posted(writes, f, amount));
    assert Landed(Lookup(data, f), Posted(writes, f, amount)) == Lookup(WithWrites(data, writes), f) + amount;
  }

  /** An operation under the lock is the program's own next operation. */
  lemma OperateStaysOnCourse(store: Store, x: Txn)
    requires OnCourse(store, x)
    ensures OnCourse(store, OperateOn(DataOf(store, x.command.owner), x))
  {
    var data := DataOf(store, x.command.owner);
    match x.command.program(x.answers)
    case Get(f) =>
    case Put(f, v) =>
      WriteReadsBack(data, x.writes, f, Set(v));
    case Post(f, d) =>
      PostReadsBack(data, x.writes, f, d);
    case Finish =>
  }

  lemma {:induction false} SerialIgnores(start: Store, granted: seq<nat>, done: map<nat, Committed>,
                                         t: nat, c: Committed)
    requires t !in granted
    ensures Serial(start, granted, done[t := c]) == Serial(start, granted, done)
  {
    if granted == [] {
    } else {
      SerialIgnores(start, granted[..|granted| - 1], done, t, c);
    }
  }

  /** Commands of different owners touch different data. */
  lemma OwnersCommute(store: Store, c: Committed, d: Committed)
    requires c.command.owner != d.command.owner
    ensures ApplyAlone(ApplyAlone(store, c), d) == ApplyAlone(ApplyAlone(store, d), c)
  {
    assert DataOf(ApplyAlone(store, c), d.command.owner) == DataOf(store, d.command.owner);
    assert DataOf(ApplyAlone(store, d), c.command.owner) == DataOf(store, c.command.owner);
  }

  /** Committing at its place in the lock order is committing now, when every later committed
      command belongs to another owner. */
  lemma {:induction false} SerialInserts(start: Store, granted: seq<nat>, done: map<nat, Committed>,
                                         t: nat, c: Committed, i: nat)
    requires i < |granted| && granted[i] == t && t !in done
    requires forall j, k :: 0 <= j < k < |granted| ==> granted[j] != granted[k]
    requires forall j :: i < j < |granted| && granted[j] in done ==>
      done[granted[j]].command.owner != c.command.owner
    ensures Serial(start, granted, done[t := c]) == ApplyAlone(Serial(start, granted, done), c)
    decreases |granted|
  {
    var n := |granted| - 1;
    var last := granted[n];
    if i == n {
      SerialIgnores(start, granted[..n], done, t, c);
    } else {
      SerialInserts(start, granted[..n], done, t, c, i);
      if last in done {
        OwnersCommute(Serial(start, granted[..n], done), c, done[last]);
      }
    }
  }

  /** A commit leaves another owner's transaction on its course, and in its place. */
  lemma CommitLeavesOthers(s: System, t: nat, u: nat)
    requires t in s.open && u in s.open && t != u && s.open[t].locked
    requires s.open[t].command.program(s.open[t].answers).Finish?
    requires s.open[t].command.owner != s.open[u].command.owner
    requires OnCourse(s.store, s.open[u]) && exists k: nat :: HeldSince(s, u, k)
    ensures var s' := Step(s, Commit(t), AS_WRITTEN);
      OnCourse(s'.store, s'.open[u]) && exists k: nat :: HeldSince(s', u, k)
  {
    var s' := Step(s, Commit(t), AS_WRITTEN);
    assert DataOf(s'.store, s.open[u].command.owner) == DataOf(s.store, s.open[u].command.owner);
    var k: nat :| HeldSince(s, u, k);
    assert HeldSince(s', u, k);
  }

  /** The store after a commit is the serial one with the command in its place. */
  lemma CommitIsSerial(start: Store, s: System, t: nat)
    requires Inv(start, s) && t in s.open && s.open[t].locked
    requires s.open[t].command.program(s.open[t].answers).Finish?
    ensures var s' := Step(s, Commit(t), AS_WRITTEN); s'.store == Serial(start, s'.granted, s'.done)
    ensures t in s.granted
  {
    var x := s.open[t];
    var i: nat :| HeldSince(s, t, i);
    SerialInserts(start, s.granted, s.done, t, Committed(x.command, x.answers), i);
    assert OnCourse(s.store, x);
  }

  lemma CommitKeeps(start: Store, s: System, t: nat)
    requires Inv(start, s) && t in s.open && s.open[t].locked
    requires s.open[t].command.program(s.open[t].answers).Finish?
    ensures Inv(start, Step(s, Commit(t), AS_WRITTEN))
  {
    var s' := Step(s, Commit(t), AS_WRITTEN);
    CommitIsSerial(start, s, t);
    forall u | u in s'.open && s'.open[u].locked
      ensures OnCourse(s'.store, s'.open[u]) && exists k: nat :: HeldSince(s', u, k)
    {
      CommitLeavesOthers(s, t, u);
    }
  }

  /** A grant to somebody who has not committed takes nobody's place. */
  lemma StillHeld(s: System, s': System, u: nat)
    requires u in s.open && u in s'.open && s'.open[u].command == s.open[u].command
    requires s'.done == s.done && s.granted <= s'.granted
    requires forall j :: |s.granted| <= j < |s'.granted| ==> s'.granted[j] !in s.done
    requires exists k: nat :: HeldSince(s, u, k)
    ensures exists k: nat :: HeldSince(s', u, k)
  {
    var k: nat :| HeldSince(s, u, k);
    assert HeldSince(s', u, k);
  }

  /** Nothing read before the lock outlives it: a newly locked transaction starts on course. */
  lemma FreshlyLockedIsOnCourse(store: Store, x: Txn)
    requires x.answers == [] && x.writes == map[] && x.identity.Keys <= {x.command.self}
    ensures OnCourse(store, x.(locked := true, identity := x.identity - {x.command.self}))
  {
    assert WithWrites(DataOf(store, x.command.owner), map[]) == DataOf(store, x.command.owner);
  }

  lemma LockKeepsHolding(s: System, t: nat)
    requires t in s.open && !s.open[t].locked && LockFree(s, t, s.open[t].command.owner)
    requires GrantedOnce(s) && Waiting(s) && Holding(s)
    ensures Holding(Step(s, Lock(t), AS_WRITTEN))
  {
    var s' := Step(s, Lock(t), AS_WRITTEN);
    FreshlyLockedIsOnCourse(s.store, s.open[t]);
    assert HeldSince(s', t, |s.granted|);
    forall u | u in s'.open && s'.open[u].locked
      ensures OnCourse(s'.store, s'.open[u]) && exists k: nat :: HeldSince(s', u, k)
    {
      if u != t { StillHeld(s, s', u); }
    }
  }

  lemma LockKeepsGrants(s: System, t: nat)
    requires t in s.open && !s.open[t].locked && LockFree(s, t, s.open[t].command.owner)
    requires GrantedOnce(s) && Waiting(s) && OneHolderEach(s)
    ensures var s' := Step(s, Lock(t), AS_WRITTEN); GrantedOnce(s') && Waiting(s') && OneHolderEach(s')
  {
    var s' := Step(s, Lock(t), AS_WRITTEN);
    assert s'.granted == s.granted + [t] && s'.open.Keys == s.open.Keys;
    forall u | u in s'.open && u != t ensures s'.open[u] == s.open[u] {
    }
  }

  /** A grant commits nothing. */
  lemma GrantsAloneLeaveTheStore(start: Store, granted: seq<nat>, done: map<nat, Committed>, t: nat)
    requires t !in done
    ensures Serial(start, granted + [t], done) == Serial(start, granted, done)
  {
    assert (granted + [t])[..|granted|] == granted;
  }

  lemma LockKeeps(start: Store, s: System, t: nat)
    requires Inv(start, s) && t in s.open && !s.open[t].locked && LockFree(s, t, s.open[t].command.owner)
    ensures Inv(start, Step(s, Lock(t), AS_WRITTEN))
  {
    LockKeepsHolding(s, t);
    LockKeepsGrants(s, t);
    GrantsAloneLeaveTheStore(start, s.granted, s.done, t);
  }

  lemma RecordKeepsHolding(s: System, t: nat, x: Txn)
    requires t in s.open && Holding(s) && GrantedOnce(s)
    requires x.command == s.open[t].command && x.locked == s.open[t].locked
    requires x.locked ==> OnCourse(s.store, x)
    ensures Holding(s.(open := s.open[t := x]))
  {
    var s' := s.(open := s.open[t := x]);
    forall u | u in s'.open && s'.open[u].locked
      ensures OnCourse(s'.store, s'.open[u]) && exists k: nat :: HeldSince(s', u, k)
    {
      StillHeld(s, s', u);
    }
  }

  lemma RecordKeepsGrants(s: System, t: nat, x: Txn)
    requires t in s.open && GrantedOnce(s) && Waiting(s) && OneHolderEach(s)
    requires x.command == s.open[t].command && x.locked == s.open[t].locked
    requires !x.locked ==> x.answers == [] && x.writes == map[] && x.identity.Keys <= {x.command.self}
    ensures var s' := s.(open := s.open[t := x]); GrantedOnce(s') && Waiting(s') && OneHolderEach(s')
  {
  }

  lemma RecordKeeps(start: Store, s: System, t: nat, x: Txn)
    requires Inv(start, s) && t in s.open
    requires x.command == s.open[t].command && x.locked == s.open[t].locked
    requires x.locked ==> OnCourse(s.store, x)
    requires !x.locked ==> x.answers == [] && x.writes == map[] && x.identity.Keys <= {x.command.self}
    ensures Inv(start, s.(open := s.open[t := x]))
  {
    RecordKeepsHolding(s, t, x);
    RecordKeepsGrants(s, t, x);
  }

  lemma OpenKeepsHolding(s: System, t: nat, command: Command)
    requires Holding(s) && GrantedOnce(s)
    ensures Holding(Step(s, Open(t, command), AS_WRITTEN))
  {
    var s' := Step(s, Open(t, command), AS_WRITTEN);
    forall u | u in s'.open && s'.open[u].locked
      ensures OnCourse(s'.store, s'.open[u]) && exists k: nat :: HeldSince(s', u, k)
    {
      StillHeld(s, s', u);
    }
  }

  lemma OpenKeepsGrants(s: System, t: nat, command: Command)
    requires GrantedOnce(s) && Waiting(s) && OneHolderEach(s)
    ensures var s' := Step(s, Open(t, command), AS_WRITTEN); GrantedOnce(s') && Waiting(s') && OneHolderEach(s')
  {
  }

  lemma OpenKeeps(start: Store, s: System, t: nat, command: Command)
    requires Inv(start, s)
    ensures Inv(start, Step(s, Open(t, command), AS_WRITTEN))
  {
    OpenKeepsHolding(s, t, command);
    OpenKeepsGrants(s, t, command);
  }

  lemma AbortKeeps(start: Store, s: System, t: nat)
    requires Inv(start, s)
    ensures Inv(start, Step(s, Abort(t), AS_WRITTEN))
  {
    var s' := Step(s, Abort(t), AS_WRITTEN);
    forall u | u in s'.open && s'.open[u].locked
      ensures exists k: nat :: HeldSince(s', u, k)
    {
      StillHeld(s, s', u);
    }
  }

  lemma StepKeeps(start: Store, s: System, a: Action)
    requires Inv(start, s)
    ensures Inv(start, Step(s, a, AS_WRITTEN))
  {
    match a
    case Open(t, command) => OpenKeeps(start, s, t, command);
    case LoadSelf(t) =>
      if t in s.open && !s.open[t].locked {
        var x := s.open[t];
        RecordKeeps(start, s, t, Step(s, a, AS_WRITTEN).open[t]);
      }
    case Lock(t) =>
      if t in s.open && !s.open[t].locked && LockFree(s, t, s.open[t].command.owner) { LockKeeps(start, s, t); }
    case Operate(t) =>
      if t in s.open && s.open[t].locked {
        OperateStaysOnCourse(s.store, s.open[t]);
        RecordKeeps(start, s, t, Step(s, a, AS_WRITTEN).open[t]);
      }
    case Commit(t) =>
      if t in s.open && s.open[t].locked && s.open[t].command.program(s.open[t].answers).Finish? {
        CommitKeeps(start, s, t);
      }
    case Abort(t) => AbortKeeps(start, s, t);
  }

  lemma {:induction false} RunKeeps(start: Store, s: System, actions: seq<Action>)
    requires Inv(start, s)
    ensures Inv(start, Run(s, actions, AS_WRITTEN))
    decreases |actions|
  {
    if actions == [] {
    } else {
      StepKeeps(start, s, actions[0]);
      RunKeeps(start, Step(s, actions[0], AS_WRITTEN), actions[1..]);
    }
  }

  /** Any interleaving over any number of owners leaves what the committed commands would have
      left one after another, each once, in the order their locks were granted. */
  lemma SerialInLockOrder(start: Store, actions: seq<Action>)
    ensures var s := Run(System(start, map[], [], map[]), actions, AS_WRITTEN);
      && s.store == Serial(start, s.granted, s.done)
      && (forall t :: t in s.done ==> t in s.granted)
      && (forall i, j :: 0 <= i < j < |s.granted| ==> s.granted[i] != s.granted[j])
  {
    RunKeeps(start, System(start, map[], [], map[]), actions);
  }

  // ---------------------------------------------------------------- what each action does

  /** A rolled-back transaction leaves the store, the grants and the commits as they were, and is no
      longer open: its owner's lock is free for the next waiter as far as it was the one holding it. */
  lemma AnAbortUndoes(s: System, t: nat, u: nat)
    ensures var s' := Step(s, Abort(t), AS_WRITTEN);
      && s'.store == s.store && s'.done == s.done && s'.granted == s.granted && s'.open == s.open - {t}
      && (u in s'.open && !s'.open[u].locked
          && (forall v :: v in s.open && v != u && v != t && s.open[v].locked ==>
                s.open[v].command.owner != s.open[u].command.owner) ==>
            var locked := Step(s', Lock(u), AS_WRITTEN); u in locked.open && locked.open[u].locked)
  {
    var s' := Step(s, Abort(t), AS_WRITTEN);
    if u in s'.open && !s'.open[u].locked
       && (forall v :: v in s.open && v != u && v != t && s.open[v].locked ==>
             s.open[v].command.owner != s.open[u].command.owner) {
      assert LockFree(s', u, s'.open[u].command.owner);
    }
  }

  /** A transaction id is spent once it has been granted a lock: what is not open and was granted is
      never open again. */
  ghost predicate Spent(s: System, t: nat) {
    t !in s.open && t in s.granted && t !in s.done
  }

  lemma {:induction false} TheSpentNeverCommit(s: System, t: nat, actions: seq<Action>)
    requires Spent(s, t)
    ensures Spent(Run(s, actions, AS_WRITTEN), t)
    decreases |actions|
  {
    if actions == [] {
    } else {
      TheSpentNeverCommit(Step(s, actions[0], AS_WRITTEN), t, actions[1..]);
    }
  }

  /** A transaction that held its lock and is rolled back before it commits is never among the
      committed, then or after any further actions; the store stays the serial one without it. */
  lemma TheAbortedNeverCommit(start: Store, before: seq<Action>, t: nat, after: seq<Action>)
    requires var s := Run(System(start, map[], [], map[]), before, AS_WRITTEN); t in s.open && s.open[t].locked
    ensures var s := Run(System(start, map[], [], map[]), before + [Abort(t)] + after, AS_WRITTEN);
      t !in s.done && t !in s.open && s.store == Serial(start, s.granted, s.done)
  {
    var empty := System(start, map[], [], map[]);
    var s := Run(empty, before, AS_WRITTEN);
    RunKeeps(start, empty, before);
    var i: nat :| HeldSince(s, t, i);
    assert t in s.granted;
    var aborted := Step(s, Abort(t), AS_WRITTEN);
    RunAppends(empty, before, [Abort(t)] + after, AS_WRITTEN);
    assert before + [Abort(t)] + after == before + ([Abort(t)] + after) && ([Abort(t)] + after)[1..] == after;
    TheSpentNeverCommit(aborted, t, after);
    SerialInLockOrder(start, before + [Abort(t)] + after);
  }

  /** Nor is one rolled back before it took its lock, unless its id is opened again. */
  lemma {:induction false} TheUnopenedNeverCommit(s: System, t: nat, actions: seq<Action>)
    requires t !in s.open && t !in s.done && forall c :: Open(t, c) !in actions
    ensures var s' := Run(s, actions, AS_WRITTEN); t !in s'.open && t !in s'.done
    decreases |actions|
  {
    if actions == [] {
    } else {
      assert forall c :: Open(t, c) !in actions[1..];
      TheUnopenedNeverCommit(Step(s, actions[0], AS_WRITTEN), t, actions[1..]);
    }
  }

  /** The lock is granted exactly when no other open transaction holds its owner's. */
  lemma TheLockIsGrantedExactlyWhen(s: System, t: nat)
    requires t in s.open && !s.open[t].locked
    ensures var s' := Step(s, Lock(t), AS_WRITTEN);
      if exists u :: u in s.open && u != t && s.open[u].locked && s.open[u].command.owner == s.open[t].command.owner
      then s' == s
      else s'.open.Keys == s.open.Keys && s'.open[t].locked && s'.granted == s.granted + [t]
           && s'.store == s.store && s'.done == s.done && s.open[t].command.self !in s'.open[t].identity
           && forall u :: u in s.open && u != t ==> s'.open[u] == s.open[u]
  {
  }

  /** A commit is taken of a locked transaction whose program has finished and of no other, and
      publishes its writes on its owner's data as that stands, and on nobody else's. */
  lemma ACommitPublishesItsWrites(s: System, t: nat, f: nat, owner: nat)
    ensures var s' := Step(s, Commit(t), AS_WRITTEN);
      if t in s.open && s.open[t].locked && s.open[t].command.program(s.open[t].answers).Finish?
      then
        && s'.open == s.open - {t} && s'.granted == s.granted
        && s'.done == s.done[t := Committed(s.open[t].command, s.open[t].answers)]
        && Lookup(DataOf(s'.store, owner), f)
           == if owner == s.open[t].command.owner && f in s.open[t].writes
              then (match s.open[t].writes[f]
                    case Set(v) => v
                    case Plus(d) => Lookup(DataOf(s.store, owner), f) + d)
              else Lookup(DataOf(s.store, owner), f)
      else s' == s
  {
  }

  /** An operation is the program's next on what the transaction sees, and only of one that holds its
      lock; the answer is what a Get read. */
  lemma AnOperationIsTheProgramsNext(s: System, t: nat)
    ensures var s' := Step(s, Operate(t), AS_WRITTEN);
      && s'.store == s.store && s'.done == s.done && s'.granted == s.granted
      && (!(t in s.open && s.open[t].locked) ==> s' == s)
      && (t in s.open && s.open[t].locked ==>
            s'.open == s.open[t := OperateOn(DataOf(s.store, s.open[t].command.owner), s.open[t])])
  {
  }

  /** A Get answers with the row the session holds, else with the transaction's own write of the
      field, else with what is committed, and holds it from then on; a Put replaces the field in
      the writes and in the row held; a Post adds to what was written and lets the row go. */
  lemma AnOperationReadsAndWrites(s: System, t: nat)
    requires t in s.open && s.open[t].locked
    ensures var x, y := s.open[t], Step(s, Operate(t), AS_WRITTEN).open[t];
      && y.command == x.command && y.locked
      && match x.command.program(x.answers)
         case Get(f) =>
           var stored := Lookup(DataOf(s.store, x.command.owner), f);
           && y.writes == x.writes && f in y.identity && y.answers == x.answers + [y.identity[f]]
           && y.identity - {f} == x.identity - {f}
           && y.identity[f] == (if f in x.identity then x.identity[f]
                                else if f !in x.writes then stored
                                else match x.writes[f] case Set(v) => v case Plus(d) => stored + d)
         case Put(f, v) =>
           y.answers == x.answers + [0] && y.writes == x.writes[f := Set(v)] && y.identity == x.identity[f := v]
         case Post(f, d) =>
           && y.answers == x.answers + [0] && y.writes - {f} == x.writes - {f} && y.identity == x.identity - {f}
           && f in y.writes
           && y.writes[f] == (if f !in x.writes then Plus(d)
                              else match x.writes[f] case Set(v) => Set(v + d) case Plus(b) => Plus(b + d))
         case Finish => y == x
  {
    var x, y := s.open[t], Step(s, Operate(t), AS_WRITTEN).open[t];
    match x.command.program(x.answers)
    case Get(f) => assert y.identity - {f} == x.identity - {f};
    case Put(_, _) =>
    case Post(f, _) => assert y.writes - {f} == x.writes - {f};
    case Finish =>
  }

  /** A transaction opens with nothing read or written, and before its lock loads its own row. */
  lemma OpeningAndLoading(s: System, t: nat, command: Command)
    ensures t !in s.open && t !in s.granted ==>
      Step(s, Open(t, command), AS_WRITTEN) == s.(open := s.open[t := Txn(command, false, map[], [], map[])])
    ensures t in s.open && !s.open[t].locked ==>
      var s', x := Step(s, LoadSelf(t), AS_WRITTEN), s.open[t];
      var row := Lookup(DataOf(s.store, x.command.owner), x.command.self);
      s' == s.(open := s.open[t := x.(identity := x.identity[x.command.self := row])])
    ensures t in s.open || t in s.granted ==> Step(s, Open(t, command), AS_WRITTEN) == s
    ensures t !in s.open || s.open[t].locked ==>
      Step(s, LoadSelf(t), AS_WRITTEN) == s && Step(s, Lock(t), AS_WRITTEN) == s
  {
  }

  // ---------------------------------------------------------------- what the serial order buys

  /** Read a field and write it back moved by an amount. */
  function Adder(f: nat, amount: int): Program {
    (answers: seq<int>) =>
      if |answers| == 0 then Get(f) else if |answers| == 1 then Put(f, answers[0] + amount) else Finish
  }

  /** Reconcile to target: state the new figure, read what is posted, append the difference. */
  function Reconcile(fact: nat, posted: nat, figure: int): Program {
    (answers: seq<int>) =>
      if |answers| == 0 then Put(fact, figure) else if |answers| == 1 then Get(posted)
      else if |answers| == 2 then Post(posted, figure - answers[1]) else Finish
  }

  lemma {:induction false} AdderAlone(f: nat, amount: int, data: Data, n: nat)
    requires n >= 2
    ensures Alone(Adder(f, amount), data, n) == ([Lookup(data, f), 0], data[f := Lookup(data, f) + amount])
  {
    var p := Adder(f, amount);
    assert Alone(p, data, 0) == ([], data);
    assert [] + [Lookup(data, f)] == [Lookup(data, f)];
    assert Alone(p, data, 1) == ([Lookup(data, f)], data);
    assert [Lookup(data, f)] + [0] == [Lookup(data, f), 0];
    if n == 2 {
    } else {
      AdderAlone(f, amount, data, n - 1);
    }
  }

  lemma {:induction false} ReconcileAlone(fact: nat, posted: nat, figure: int, data: Data, n: nat)
    requires n >= 3 && fact != posted
    ensures Alone(Reconcile(fact, posted, figure), data, n)
         == ([0, Lookup(data, posted), 0], data[fact := figure][posted := figure])
  {
    var p := Reconcile(fact, posted, figure);
    assert Alone(p, data, 0) == ([], data);
    assert [] + [0] == [0];
    assert Alone(p, data, 1) == ([0], data[fact := figure]);
    assert [0] + [Lookup(data, posted)] == [0, Lookup(data, posted)];
    assert Alone(p, data, 2) == ([0, Lookup(data, posted)], data[fact := figure]);
    assert [0, Lookup(data, posted)] + [0] == [0, Lookup(data, posted), 0];
    if n == 3 {
    } else {
      ReconcileAlone(fact, posted, figure, data, n - 1);
    }
  }

  /** Every command of the owner that committed is the one `programs` says, and ran to its finish. */
  ghost predicate Commits(done: map<nat, Committed>, owner: nat, programs: map<nat, Program>) {
    forall t :: t in done && done[t].command.owner == owner ==>
      t in programs && done[t].command.program == programs[t] && programs[t](done[t].answers).Finish?
  }

  function TotalMoved(granted: seq<nat>, done: map<nat, Committed>, owner: nat, amounts: map<nat, int>): int {
    if granted == [] then 0
    else
      var last := granted[|granted| - 1];
      TotalMoved(granted[..|granted| - 1], done, owner, amounts)
      + if last in done && done[last].command.owner == owner && last in amounts then amounts[last] else 0
  }

  lemma {:induction false} SerialAdds(start: Store, granted: seq<nat>, done: map<nat, Committed>, owner: nat,
                                      f: nat, amounts: map<nat, int>)
    requires Commits(done, owner, map t | t in amounts :: Adder(f, amounts[t]))
    ensures Lookup(DataOf(Serial(start, granted, done), owner), f)
         == Lookup(DataOf(start, owner), f) + TotalMoved(granted, done, owner, amounts)
  {
    if granted == [] {
    } else {
      var last := granted[|granted| - 1];
      SerialAdds(start, granted[..|granted| - 1], done, owner, f, amounts);
      if last in done && done[last].command.owner == owner {
        var before := Serial(start, granted[..|granted| - 1], done);
        AdderAlone(f, amounts[last], DataOf(before, owner), |done[last].answers|);
      }
    }
  }

  /** Concurrent read-modify-write commands of one owner lose no update, whoever else is writing. */
  lemma NoUpdateIsLost(start: Store, actions: seq<Action>, owner: nat, f: nat, amounts: map<nat, int>)
    requires Commits(Run(System(start, map[], [], map[]), actions, AS_WRITTEN).done, owner,
                     map t | t in amounts :: Adder(f, amounts[t]))
    ensures var s := Run(System(start, map[], [], map[]), actions, AS_WRITTEN);
      Lookup(DataOf(s.store, owner), f)
        == Lookup(DataOf(start, owner), f) + TotalMoved(s.granted, s.done, owner, amounts)
  {
    var s := Run(System(start, map[], [], map[]), actions, AS_WRITTEN);
    SerialInLockOrder(start, actions);
    SerialAdds(start, s.granted, s.done, owner, f, amounts);
  }

  ghost predicate Reconciled(store: Store, owner: nat, fact: nat, posted: nat) {
    Lookup(DataOf(store, owner), fact) == Lookup(DataOf(store, owner), posted)
  }

  /** The command granted its lock at i committed for this owner, and none granted later did. */
  ghost predicate LastCommitted(granted: seq<nat>, done: map<nat, Committed>, owner: nat, i: nat) {
    && i < |granted| && CommittedFor(done, owner, granted[i])
    && (forall j :: i < j < |granted| ==> !CommittedFor(done, owner, granted[j]))
  }

  predicate CommittedFor(done: map<nat, Committed>, owner: nat, t: nat) {
    t in done && done[t].command.owner == owner
  }

  /** Both fields hold the figure of the last reconcile committed for the owner, if any did. */
  ghost predicate HoldsTheLastFigure(start: Store, store: Store, granted: seq<nat>, done: map<nat, Committed>,
                                     owner: nat, fact: nat, posted: nat, figures: map<nat, int>) {
    && (forall i: nat :: LastCommitted(granted, done, owner, i) ==>
          granted[i] in figures
          && Lookup(DataOf(store, owner), fact) == Lookup(DataOf(store, owner), posted) == figures[granted[i]])
    && ((forall t :: t in granted ==> !CommittedFor(done, owner, t)) ==>
          DataOf(store, owner) == DataOf(start, owner))
  }

  /** A grant that committed nothing for the owner changes neither its data nor which was last. */
  lemma AnotherOwnersGrant(start: Store, store: Store, granted: seq<nat>, done: map<nat, Committed>, t: nat,
                           owner: nat, fact: nat, posted: nat, figures: map<nat, int>, next: Store)
    requires HoldsTheLastFigure(start, store, granted, done, owner, fact, posted, figures)
    requires !CommittedFor(done, owner, t) && DataOf(next, owner) == DataOf(store, owner)
    ensures HoldsTheLastFigure(start, next, granted + [t], done, owner, fact, posted, figures)
  {
    forall i: nat | LastCommitted(granted + [t], done, owner, i) ensures LastCommitted(granted, done, owner, i) {
      forall j | i < j < |granted| ensures !CommittedFor(done, owner, granted[j]) {
        assert (granted + [t])[j] == granted[j];
      }
    }
    assert forall u :: u in granted ==> u in granted + [t];
  }

  /** A reconcile committed alone on any data leaves its figure in both fields. */
  lemma AReconcilesGrant(start: Store, store: Store, granted: seq<nat>, done: map<nat, Committed>, t: nat,
                         owner: nat, fact: nat, posted: nat, figures: map<nat, int>)
    requires fact != posted && CommittedFor(done, owner, t)
    requires Commits(done, owner, map u | u in figures :: Reconcile(fact, posted, figures[u]))
    ensures HoldsTheLastFigure(start, ApplyAlone(store, done[t]), granted + [t], done, owner, fact, posted, figures)
  {
    ReconcileAlone(fact, posted, figures[t], DataOf(store, owner), |done[t].answers|);
    assert (granted + [t])[|granted|] == t && t in granted + [t];
  }

  lemma {:induction false} SerialReconciles(start: Store, granted: seq<nat>, done: map<nat, Committed>, owner: nat,
                                            fact: nat, posted: nat, figures: map<nat, int>)
    requires fact != posted
    requires Commits(done, owner, map t | t in figures :: Reconcile(fact, posted, figures[t]))
    ensures HoldsTheLastFigure(start, Serial(start, granted, done), granted, done, owner, fact, posted, figures)
  {
    if granted == [] {
    } else {
      var init, last := granted[..|granted| - 1], granted[|granted| - 1];
      assert granted == init + [last];
      var before := Serial(start, init, done);
      if CommittedFor(done, owner, last) {
        AReconcilesGrant(start, before, init, done, last, owner, fact, posted, figures);
      } else {
        SerialReconciles(start, init, done, owner, fact, posted, figures);
        AnotherOwnersGrant(start, before, init, done, last, owner, fact, posted, figures, Serial(start, granted, done));
      }
    }
  }

  /** However reconciles race, the figure asserted and the figure posted both end as the last
      committed reconcile's, last in lock order. */
  lemma PostedMatchesFact(start: Store, actions: seq<Action>, owner: nat, fact: nat, posted: nat,
                          figures: map<nat, int>)
    requires fact != posted
    requires Commits(Run(System(start, map[], [], map[]), actions, AS_WRITTEN).done, owner,
                     map t | t in figures :: Reconcile(fact, posted, figures[t]))
    ensures var s := Run(System(start, map[], [], map[]), actions, AS_WRITTEN);
      HoldsTheLastFigure(start, s.store, s.granted, s.done, owner, fact, posted, figures)
  {
    var s := Run(System(start, map[], [], map[]), actions, AS_WRITTEN);
    SerialInLockOrder(start, actions);
    SerialReconciles(start, s.granted, s.done, owner, fact, posted, figures);
  }

  /** The transaction's next lock, operation or commit is not waiting for anyone. */
  ghost predicate CanMove(s: System, t: nat) {
    || Step(s, Lock(t), AS_WRITTEN) != s
    || Step(s, Operate(t), AS_WRITTEN) != s
    || Step(s, Commit(t), AS_WRITTEN) != s
  }

  /** One key per transaction: somebody can always move, so no two commands wait on each other. */
  lemma NobodyDeadlocks(start: Store, s: System)
    requires Inv(start, s) && s.open != map[]
    ensures exists t :: t in s.open && CanMove(s, t)
  {
    if t :| t in s.open && s.open[t].locked {
      var x := s.open[t];
      if x.command.program(x.answers).Finish? {
        assert t !in Step(s, Commit(t), AS_WRITTEN).open;
      } else {
        assert |Step(s, Operate(t), AS_WRITTEN).open[t].answers| == |x.answers| + 1;
      }
    } else {
      var t :| t in s.open;
      assert Step(s, Lock(t), AS_WRITTEN).open[t].locked;
    }
  }

  // ---------------------------------------------------------------- why each guard is needed

  lemma {:induction false} RunUnfolds(s: System, actions: seq<Action>, states: seq<System>, g: Guards)
    requires |states| == |actions| > 0
    requires states[0] == Step(s, actions[0], g)
    requires forall i :: 0 < i < |states| ==> states[i] == Step(states[i - 1], actions[i], g)
    ensures Run(s, actions, g) == states[|states| - 1]
    decreases |actions|
  {
    if |actions| == 1 {
      assert Run(states[0], actions[1..], g) == states[0];
    } else {
      RunUnfolds(states[0], actions[1..], states[1..], g);
    }
  }

  lemma {:induction false} RunAppends(s: System, before: seq<Action>, after: seq<Action>, g: Guards)
    ensures Run(s, before + after, g) == Run(Run(s, before, g), after, g)
    decreases |before|
  {
    if before == [] {
      assert before + after == after;
    } else {
      assert (before + after)[1..] == before[1..] + after;
      RunAppends(Step(s, before[0], g), before[1..], after, g);
    }
  }

  /** Two sign-ins of owner 7, each counting one failed attempt on the user's own row (field 0). */
  const COUNT_ONE := Command(7, 0, Adder(0, 1))
  const BOTH_LOAD := [Open(1, COUNT_ONE), LoadSelf(1), Open(2, COUNT_ONE), LoadSelf(2)]
  const FIRST_COUNTS := [Lock(1), Operate(1), Operate(1), Commit(1)]
  const SECOND_COUNTS := [Lock(2), Operate(2), Operate(2), Commit(2)]
  const LOADED := Txn(COUNT_ONE, false, map[0 := 0], [], map[])

  lemma BothLoad(g: Guards)
    ensures Run(System(map[], map[], [], map[]), BOTH_LOAD, g)
         == System(map[], map[1 := LOADED, 2 := LOADED], [], map[])
  {
    var s0 := System(map[], map[], [], map[]);
    var s1 := Step(s0, BOTH_LOAD[0], g);
    var s2 := Step(s1, BOTH_LOAD[1], g);
    var s3 := Step(s2, BOTH_LOAD[2], g);
    var s4 := Step(s3, BOTH_LOAD[3], g);
    assert s4.open == map[1 := LOADED, 2 := LOADED];
    RunUnfolds(s0, BOTH_LOAD, [s1, s2, s3, s4], g);
  }

  lemma LoadedCountsOne(data: Data)
    ensures var x := OperateOn(data, OperateOn(data, LOADED.(locked := true)));
      x.writes == map[0 := Set(1)] && |x.answers| == 2 && x.locked && x.command == COUNT_ONE
  {
    assert [] + [0] == [0];
    assert OperateOn(data, LOADED.(locked := true)).answers == [0];
  }

  /** A sign-in that counts from a row it loaded before its lock writes 1, whatever is stored. */
  lemma CountsFromTheLoadedRow(s: System, t: nat)
    requires t in s.open && s.open[t] == LOADED && LockFree(s, t, 7)
    ensures var s' := Run(s, [Lock(t), Operate(t), Operate(t), Commit(t)], Guards(true, false));
      s'.open == s.open - {t} && Lookup(DataOf(s'.store, 7), 0) == 1
  {
    var g := Guards(true, false);
    var a := [Lock(t), Operate(t), Operate(t), Commit(t)];
    var s1 := Step(s, a[0], g);
    assert s1.open[t] == LOADED.(locked := true);
    LoadedCountsOne(DataOf(s.store, 7));
    var s2 := Step(s1, a[1], g);
    var s3 := Step(s2, a[2], g);
    var s4 := Step(s3, a[3], g);
    RunUnfolds(s, a, [s1, s2, s3, s4], g);
  }

  /** Unless the row is expired under the lock, two wrong passwords count once. */
  lemma WithoutTheExpiryACountIsLost()
    ensures Lookup(DataOf(Run(System(map[], map[], [], map[]), BOTH_LOAD + FIRST_COUNTS + SECOND_COUNTS,
                              Guards(true, false)).store, 7), 0) == 1
  {
    var g := Guards(true, false);
    var s0 := System(map[], map[], [], map[]);
    BothLoad(g);
    RunAppends(s0, BOTH_LOAD, FIRST_COUNTS, g);
    RunAppends(s0, BOTH_LOAD + FIRST_COUNTS, SECOND_COUNTS, g);
    CountsFromTheLoadedRow(Run(s0, BOTH_LOAD, g), 1);
    CountsFromTheLoadedRow(Run(s0, BOTH_LOAD + FIRST_COUNTS, g), 2);
  }

  /** Two true-ups of owner 7's account: field 1 the asserted figure, field 2 what the ledger posted. */
  function TrueUp(figure: int): Command { Command(7, 0, Reconcile(1, 2, figure)) }
  function Begun(figure: int): Txn { Txn(TrueUp(figure), true, map[], [], map[]) }
  function Ready(figure: int): Txn {
    Txn(TrueUp(figure), true, map[1 := figure], [0, 0, 0], map[1 := Set(figure), 2 := Plus(figure)])
  }
  const BOTH_BEGIN := [Open(1, TrueUp(4000)), Open(2, TrueUp(1000)), Lock(1), Lock(2)]
  const FIRST_RUNS := [Operate(1), Operate(1), Operate(1)]
  const SECOND_RUNS := [Operate(2), Operate(2), Operate(2)]
  const BOTH_COMMIT := [Commit(1), Commit(2)]

  function Stated(figure: int): Txn {
    Begun(figure).(answers := [0], writes := map[1 := Set(figure)], identity := map[1 := figure])
  }
  function ReadPosted(figure: int): Txn { Stated(figure).(answers := [0, 0], identity := map[1 := figure, 2 := 0]) }

  /** Stating the figure, reading nothing posted, and appending the whole of it. */
  lemma ThreeOperations(figure: int)
    ensures OperateOn(map[], Begun(figure)) == Stated(figure)
    ensures OperateOn(map[], Stated(figure)) == ReadPosted(figure)
    ensures OperateOn(map[], ReadPosted(figure)) == Ready(figure)
  {
    FigureStated(figure);
    NothingPosted(figure);
    WholeFigurePosted(figure);
  }

  lemma FigureStated(figure: int)
    ensures OperateOn(map[], Begun(figure)) == Stated(figure)
  {
    assert Begun(figure).answers + [0] == [0];
  }

  lemma NothingPosted(figure: int)
    ensures OperateOn(map[], Stated(figure)) == ReadPosted(figure)
  {
    assert Stated(figure).answers + [0] == [0, 0];
    assert Lookup(WithWrites(map[], map[1 := Set(figure)]), 2) == 0;
  }

  lemma WholeFigurePosted(figure: int)
    ensures OperateOn(map[], ReadPosted(figure)) == Ready(figure)
  {
    var x := ReadPosted(figure);
    assert x.answers + [0] == [0, 0, 0];
    assert x.identity - {2} == map[1 := figure];
  }

  /** While nothing is committed for its owner, a true-up reads nothing posted. */
  lemma RunsOnAStaleReading(s: System, t: nat, figure: int, g: Guards)
    requires t in s.open && s.open[t] == Begun(figure) && s.store == map[]
    ensures Run(s, [Operate(t), Operate(t), Operate(t)], g) == s.(open := s.open[t := Ready(figure)])
  {
    var a := [Operate(t), Operate(t), Operate(t)];
    ThreeOperations(figure);
    assert DataOf(s.store, 7) == map[];
    var s1 := Step(s, a[0], g);
    var s2 := Step(s1, a[1], g);
    var s3 := Step(s2, a[2], g);
    assert s3.open[t] == Ready(figure);
    RunUnfolds(s, a, [s1, s2, s3], g);
  }

  lemma BothBegin()
    ensures Run(System(map[], map[], [], map[]), BOTH_BEGIN, Guards(false, true))
         == System(map[], map[1 := Begun(4000), 2 := Begun(1000)], [1, 2], map[])
  {
    var g := Guards(false, true);
    var s0 := System(map[], map[], [], map[]);
    var s1 := Step(s0, BOTH_BEGIN[0], g);
    var s2 := Step(s1, BOTH_BEGIN[1], g);
    var s3 := Step(s2, BOTH_BEGIN[2], g);
    assert s3.open[1] == Begun(4000) by { assert s3.open[1].identity == map[]; }
    var s4 := Step(s3, BOTH_BEGIN[3], g);
    assert s4.open[2] == Begun(1000) by { assert s4.open[2].identity == map[]; }
    assert s4.open == map[1 := Begun(4000), 2 := Begun(1000)];
    RunUnfolds(s0, BOTH_BEGIN, [s1, s2, s3, s4], g);
  }

  lemma BothCommit(granted: seq<nat>)
    ensures !Reconciled(Run(System(map[], map[1 := Ready(4000), 2 := Ready(1000)], granted, map[]),
                            BOTH_COMMIT, Guards(false, true)).store, 7, 1, 2)
  {
    var g := Guards(false, true);
    var s0 := System(map[], map[1 := Ready(4000), 2 := Ready(1000)], granted, map[]);
    var s1 := Step(s0, BOTH_COMMIT[0], g);
    assert Lookup(DataOf(s1.store, 7), 2) == 4000;
    var s2 := Step(s1, BOTH_COMMIT[1], g);
    assert Lookup(DataOf(s2.store, 7), 2) == 5000 && Lookup(DataOf(s2.store, 7), 1) == 1000;
    RunUnfolds(s0, BOTH_COMMIT, [s1, s2], g);
  }

  lemma FirstRuns()
    ensures Run(System(map[], map[], [], map[]), BOTH_BEGIN + FIRST_RUNS, Guards(false, true))
         == System(map[], map[1 := Ready(4000), 2 := Begun(1000)], [1, 2], map[])
  {
    var g := Guards(false, true);
    BothBegin();
    RunAppends(System(map[], map[], [], map[]), BOTH_BEGIN, FIRST_RUNS, g);
    var begun := System(map[], map[1 := Begun(4000), 2 := Begun(1000)], [1, 2], map[]);
    RunsOnAStaleReading(begun, 1, 4000, g);
    assert begun.open[1 := Ready(4000)] == map[1 := Ready(4000), 2 := Begun(1000)];
  }

  lemma BothRun()
    ensures Run(System(map[], map[], [], map[]), BOTH_BEGIN + FIRST_RUNS + SECOND_RUNS, Guards(false, true))
         == System(map[], map[1 := Ready(4000), 2 := Ready(1000)], [1, 2], map[])
  {
    var g := Guards(false, true);
    FirstRuns();
    RunAppends(System(map[], map[], [], map[]), BOTH_BEGIN + FIRST_RUNS, SECOND_RUNS, g);
    var waiting := System(map[], map[1 := Ready(4000), 2 := Begun(1000)], [1, 2], map[]);
    RunsOnAStaleReading(waiting, 2, 1000, g);
    assert waiting.open[2 := Ready(1000)] == map[1 := Ready(4000), 2 := Ready(1000)];
  }

  /** Without the lock each waiter reconciles to a stale reading and the ledger diverges. */
  lemma WithoutTheLockReconcilesDiverge()
    ensures !Reconciled(Run(System(map[], map[], [], map[]), BOTH_BEGIN + FIRST_RUNS + SECOND_RUNS + BOTH_COMMIT,
                            Guards(false, true)).store, 7, 1, 2)
  {
    BothRun();
    RunAppends(System(map[], map[], [], map[]), BOTH_BEGIN + FIRST_RUNS + SECOND_RUNS, BOTH_COMMIT,
               Guards(false, true));
    BothCommit([1, 2]);
  }
}
