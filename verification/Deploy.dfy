/** The one-transaction deploy (scripts/init_database.py, app/migration_runner.py).

    The deploy opens a connection and a transaction, joins a session to it, runs its steps
    through both, flushes, and commits once.  The steps are any list of the operations below;
    closing the connection discards whatever is not committed. */
module Deploy {
  import opened Wrappers

  /** What may happen between the transaction's begin and its commit; a write is a number. */
  datatype Op =
    | Execute(writes: seq<nat>)
    | Stage(write: nat)
    | Flush
    | SessionCommit
    | SessionRollback
    | ConnectionStatement(writes: seq<nat>)
    | Migrate(writes: seq<nat>)
    | Raise

  /** The three settings: join_transaction_mode="rollback_only", autobegin=False, and the migration
      runner beginning a transaction on a connection that has none. */
  datatype Settings = Settings(rollbackOnly: bool, autobeginOff: bool, runnerBegins: bool)

  const AS_DEPLOYED := Settings(true, true, true)

  /** `deploy` is the deploy's transaction while it is active, `other` a later one on the same
      connection (`owned` when the session began it), `session` whether the session holds one. */
  datatype State = State(
    saved: seq<nat>,
    deploy: Option<seq<nat>>,
    other: Option<seq<nat>>,
    owned: bool,
    session: bool,
    pending: seq<nat>,
    raised: bool)

  function Began(database: seq<nat>): State {
    State(database, Some([]), None, false, true, [], false)
  }

  // ---------------------------------------------------------------- the operations

  /** A statement on the connection: in the active transaction, or in one it begins itself. */
  function OnConnection(s: State, writes: seq<nat>): State {
    if s.deploy.Some? then s.(deploy := Some(s.deploy.value + writes))
    else s.(other := Some((if s.other.Some? then s.other.value else []) + writes))
  }

  /** The session's autobegin: refused, or a transaction joined or begun. */
  function SessionBegun(c: Settings, s: State): State {
    if s.session then s
    else if c.autobeginOff then s.(raised := true)
    else if s.deploy.None? && s.other.None? then s.(session := true, other := Some([]), owned := true)
    else s.(session := true)
  }

  /** A statement on the session: what is pending is flushed first. */
  function OnSession(c: Settings, s: State, writes: seq<nat>): State {
    var begun := SessionBegun(c, s);
    if begun.raised then begun else OnConnection(begun, begun.pending + writes).(pending := [])
  }

  function Flushed(c: Settings, s: State): State {
    if s.pending == [] then s else OnSession(c, s, [])
  }

  function SessionCommitted(c: Settings, s: State): State {
    var flushed := OnSession(c, s, []);
    if flushed.raised then flushed
    else
      var closed := flushed.(session := false);
      if closed.owned && closed.other.Some? then
        closed.(saved := closed.saved + closed.other.value, other := None, owned := false)
      else if c.rollbackOnly then closed
      else if closed.deploy.Some? then closed.(saved := closed.saved + closed.deploy.value, deploy := None)
      else closed
  }

  function SessionRolledBack(s: State): State {
    if !s.session then s
    else if s.deploy.Some? then s.(session := false, pending := [], deploy := None)
    else s.(session := false, pending := [], other := None, owned := false)
  }

  /** app.migration_runner: Alembic commits a transaction it began itself, and no other. */
  function Migrated(c: Settings, s: State, writes: seq<nat>): State {
    if s.deploy.None? && s.other.None? && !c.runnerBegins then s.(saved := s.saved + writes)
    else OnConnection(s, writes)
  }

  function Step(c: Settings, s: State, op: Op): State {
    if s.raised then s
    else match op
    case Execute(writes) => OnSession(c, s, writes)
    case Stage(w) => s.(pending := s.pending + [w])
    case Flush => Flushed(c, s)
    case SessionCommit => SessionCommitted(c, s)
    case SessionRollback => SessionRolledBack(s)
    case ConnectionStatement(writes) => OnConnection(s, writes)
    case Migrate(writes) => Migrated(c, s, writes)
    case Raise => s.(raised := true)
  }

  function Steps(c: Settings, s: State, ops: seq<Op>): State {
    if ops == [] then s else Step(c, Steps(c, s, ops[..|ops| - 1]), ops[|ops| - 1])
  }

  /** What the database holds afterwards, and whether initialise_database returned. */
  datatype Outcome = Outcome(database: seq<nat>, returned: bool)

  /** The final flush and the deploy's own commit, which raises on a transaction already ended. */
  function Finished(c: Settings, s: State): Outcome {
    var flushed := if s.raised then s else Flushed(c, s);
    if flushed.raised || flushed.deploy.None? then Outcome(flushed.saved, false)
    else Outcome(flushed.saved + flushed.deploy.value, true)
  }

  function Deployed(c: Settings, database: seq<nat>, ops: seq<Op>): Outcome {
    Finished(c, Steps(c, Began(database), ops))
  }

  // ---------------------------------------------------------------- what each operation does

  /** A session statement carries what is staged before its own writes into the transaction in
      force; with none of its own it is refused, or joins that transaction or begins one. */
  lemma ASessionStatementFlushesFirst(c: Settings, s: State, writes: seq<nat>)
    requires !s.raised
    ensures var s', carried := Step(c, s, Execute(writes)), s.pending + writes;
      if !s.session && c.autobeginOff then s' == s.(raised := true)
      else if s.deploy.Some? then s' == s.(session := true, deploy := Some(s.deploy.value + carried), pending := [])
      else if s.other.Some? then s' == s.(session := true, other := Some(s.other.value + carried), pending := [])
      else
        && s'.saved == s.saved && s'.deploy == None && s'.other == Some(carried) && s'.session && s'.pending == []
        && !s'.raised && (!s.session ==> s'.owned) && (s.session ==> s'.owned == s.owned)
    ensures Step(c, s, Flush) == if s.pending == [] then s else Step(c, s, Execute([]))
  {
    assert s.pending + [] == s.pending && [] + (s.pending + writes) == s.pending + writes;
  }

  /** A commit of the session saves a transaction of the session's own, and the deploy's only under
      a join that passes it on; a refused one raises. */
  lemma ASessionCommitSaves(c: Settings, s: State)
    requires !s.raised
    ensures var s', t := Step(c, s, SessionCommit), Step(c, s, Execute([]));
      if t.raised then s' == t
      else if t.owned && t.other.Some? then
        s' == t.(session := false, saved := t.saved + t.other.value, other := None, owned := false)
      else if c.rollbackOnly || t.deploy.None? then s' == t.(session := false)
      else s' == t.(session := false, saved := t.saved + t.deploy.value, deploy := None)
  {
  }

  /** A rollback of a session that holds a transaction ends the one in force, the deploy's first,
      and drops what is staged. */
  lemma ASessionRollbackEnds(c: Settings, s: State)
    requires !s.raised
    ensures var s' := Step(c, s, SessionRollback);
      if !s.session then s' == s
      else if s.deploy.Some? then s' == State(s.saved, None, s.other, s.owned, false, [], false)
      else s' == State(s.saved, None, None, false, false, [], false)
  {
  }

  /** What the connection runs lands in the transaction in force, begun if there is none; what the
      migration runner runs with none, and begins none, Alembic saves at once. */
  lemma AConnectionStatementLands(c: Settings, s: State, writes: seq<nat>)
    requires !s.raised
    ensures var s' := Step(c, s, ConnectionStatement(writes));
      if s.deploy.Some? then s' == s.(deploy := Some(s.deploy.value + writes))
      else if s.other.Some? then s' == s.(other := Some(s.other.value + writes))
      else s' == s.(other := Some(writes))
    ensures Step(c, s, Migrate(writes)) ==
      if s.deploy.None? && s.other.None? && !c.runnerBegins then s.(saved := s.saved + writes)
      else Step(c, s, ConnectionStatement(writes))
  {
    assert [] + writes == writes;
  }

  /** Staging touches no transaction; after a raise nothing runs. */
  lemma StagingAndRaising(c: Settings, s: State, w: nat, op: Op)
    ensures !s.raised ==> Step(c, s, Stage(w)) == s.(pending := s.pending + [w])
    ensures !s.raised ==> Step(c, s, Raise) == s.(raised := true)
    ensures s.raised ==> Step(c, s, op) == s
  {
  }

  /** The deploy's end: what is staged goes in after the writes before it, and the whole transaction
      is saved, in order, after what the database held; or nothing of it is. */
  lemma TheFinalCommitIsInOrder(c: Settings, s: State)
    ensures var o := Finished(c, s);
      if !s.raised && s.deploy.Some? && (s.session || s.pending == [] || !c.autobeginOff)
      then o == Outcome(s.saved + s.deploy.value + s.pending, true)
      else o == Outcome(s.saved, false)
  {
    if s.deploy.Some? {
      assert s.saved + s.deploy.value + s.pending == s.saved + (s.deploy.value + s.pending);
    }
    assert s.pending + [] == s.pending;
  }

  // ---------------------------------------------------------------- all or nothing

  function WritesOf(op: Op): multiset<nat> {
    match op
    case Execute(writes) => multiset(writes)
    case Stage(w) => multiset{w}
    case ConnectionStatement(writes) => multiset(writes)
    case Migrate(writes) => multiset(writes)
    case _ => multiset{}
  }

  function AllWrites(ops: seq<Op>): multiset<nat> {
    if ops == [] then multiset{} else AllWrites(ops[..|ops| - 1]) + WritesOf(ops[|ops| - 1])
  }

  /** The database exactly as it began, or with every write of the deploy, the second exactly when
      the deploy returned. */
  ghost predicate AllOrNothing(database: seq<nat>, ops: seq<Op>, o: Outcome) {
    if o.returned then multiset(o.database) == multiset(database) + AllWrites(ops) else o.database == database
  }

  /** Nothing has been saved; while the deploy's transaction is active it and the staged rows hold
      every write so far, and the session has none but it. */
  ghost predicate Inv(database: seq<nat>, ops: seq<Op>, s: State) {
    && s.saved == database && !s.owned
    && (s.session ==> s.deploy.Some?)
    && (!s.raised && s.deploy.Some? ==> multiset(s.deploy.value) + multiset(s.pending) == AllWrites(ops))
  }

  lemma OneMoreWrite(ops: seq<Op>, op: Op)
    ensures AllWrites(ops + [op]) == AllWrites(ops) + WritesOf(op)
  {
    assert (ops + [op])[..|ops|] == ops;
  }

  /** A session statement carries the staged rows and its own writes into the transaction. */
  lemma OnSessionMoves(s: State, writes: seq<nat>)
    requires !s.raised && s.deploy.Some?
    ensures var next := OnSession(AS_DEPLOYED, s, writes);
      next.raised || (next.deploy.Some?
        && multiset(next.deploy.value) + multiset(next.pending)
           == multiset(s.deploy.value) + multiset(s.pending) + multiset(writes))
  {
    if s.session {
      assert multiset(s.deploy.value + (s.pending + writes))
          == multiset(s.deploy.value) + multiset(s.pending) + multiset(writes);
    }
  }

  lemma StepKeepsTheDatabase(database: seq<nat>, ops: seq<Op>, s: State, op: Op)
    requires Inv(database, ops, s)
    ensures var next := Step(AS_DEPLOYED, s, op);
      next.saved == database && !next.owned && (next.session ==> next.deploy.Some?)
  {
  }

  lemma StepKeepsTheWrites(database: seq<nat>, ops: seq<Op>, s: State, op: Op)
    requires Inv(database, ops, s) && !s.raised && s.deploy.Some?
    ensures var next := Step(AS_DEPLOYED, s, op);
      next.raised || next.deploy.None?
      || multiset(next.deploy.value) + multiset(next.pending) == AllWrites(ops) + WritesOf(op)
  {
    match op
    case Execute(writes) => OnSessionMoves(s, writes);
    case Flush => OnSessionMoves(s, []);
    case SessionCommit => OnSessionMoves(s, []);
    case _ =>
  }

  lemma StepKeeps(database: seq<nat>, ops: seq<Op>, s: State, op: Op)
    requires Inv(database, ops, s)
    ensures Inv(database, ops + [op], Step(AS_DEPLOYED, s, op))
  {
    OneMoreWrite(ops, op);
    StepKeepsTheDatabase(database, ops, s, op);
    if !s.raised && s.deploy.Some? {
      StepKeepsTheWrites(database, ops, s, op);
    }
  }

  lemma {:induction false} StepsKeep(database: seq<nat>, ops: seq<Op>)
    ensures Inv(database, ops, Steps(AS_DEPLOYED, Began(database), ops))
    decreases |ops|
  {
    if ops == [] {
    } else {
      var init := ops[..|ops| - 1];
      StepsKeep(database, init);
      StepKeeps(database, init, Steps(AS_DEPLOYED, Began(database), init), ops[|ops| - 1]);
      assert init + [ops[|ops| - 1]] == ops;
    }
  }

  /** Whatever the steps do to the session, the connection and the runner. */
  lemma TheDeploySavesAllOrNothing(database: seq<nat>, ops: seq<Op>)
    ensures AllOrNothing(database, ops, Deployed(AS_DEPLOYED, database, ops))
  {
    StepsKeep(database, ops);
    var s := Steps(AS_DEPLOYED, Began(database), ops);
    if !s.raised {
      assert s.pending + [] == s.pending;
    }
  }

  // ---------------------------------------------------------------- exactly when it saves

  /** A step that leaves the deploy able to save; `ended` when the session holds no transaction. */
  predicate CleanStep(op: Op, ended: bool) {
    match op
    case Raise => false
    case SessionRollback => ended
    case SessionCommit => !ended
    case Execute(_) => !ended
    case Stage(_) => !ended
    case _ => true
  }

  /** No step raised; the session was not rolled back while it held the deploy's transaction, and
      nothing but a flush with nothing staged or a rollback followed a commit of it. */
  predicate Clean(ops: seq<Op>, ended: bool)
    decreases |ops|
  {
    ops != [] ==> CleanStep(ops[0], ended) && Clean(ops[1..], ended || ops[0].SessionCommit?)
  }

  function Onwards(c: Settings, s: State, ops: seq<Op>): State
    decreases |ops|
  {
    if ops == [] then s else Onwards(c, Step(c, s, ops[0]), ops[1..])
  }

  lemma {:induction false} OnwardsAppends(c: Settings, s: State, ops: seq<Op>, op: Op)
    ensures Onwards(c, s, ops + [op]) == Step(c, Onwards(c, s, ops), op)
    decreases |ops|
  {
    if ops == [] {
      assert (ops + [op])[1..] == [];
    } else {
      assert (ops + [op])[1..] == ops[1..] + [op];
      OnwardsAppends(c, Step(c, s, ops[0]), ops[1..], op);
    }
  }

  lemma {:induction false} OnwardsIsSteps(c: Settings, s: State, ops: seq<Op>)
    ensures Onwards(c, s, ops) == Steps(c, s, ops)
    decreases |ops|
  {
    if ops == [] {
    } else {
      var init, last := ops[..|ops| - 1], ops[|ops| - 1];
      assert init + [last] == ops;
      OnwardsAppends(c, s, init, last);
      OnwardsIsSteps(c, s, init);
    }
  }

  /** Past saving: a step raised, the transaction ended, or rows staged on a session that has none. */
  predicate Doomed(s: State) {
    s.raised || s.deploy.None? || (!s.session && s.pending != [])
  }

  lemma {:induction false} TheDoomedNeverReturn(s: State, ops: seq<Op>)
    requires Doomed(s) && (s.session ==> s.deploy.Some?)
    ensures !Finished(AS_DEPLOYED, Onwards(AS_DEPLOYED, s, ops)).returned
    decreases |ops|
  {
    if ops == [] {
    } else {
      TheDoomedNeverReturn(Step(AS_DEPLOYED, s, ops[0]), ops[1..]);
    }
  }

  lemma CleanStepsKeepItAble(s: State, op: Op)
    requires !Doomed(s)
    ensures var next := Step(AS_DEPLOYED, s, op);
      && (Doomed(next) <==> !CleanStep(op, !s.session))
      && (!Doomed(next) ==> next.session == (s.session && !op.SessionCommit?))
      && (next.session ==> next.deploy.Some?)
  {
  }

  lemma {:induction false} ReturnsExactlyWhenCleanFrom(s: State, ops: seq<Op>)
    requires !Doomed(s)
    ensures Finished(AS_DEPLOYED, Onwards(AS_DEPLOYED, s, ops)).returned <==> Clean(ops, !s.session)
    decreases |ops|
  {
    if ops == [] {
    } else {
      var next := Step(AS_DEPLOYED, s, ops[0]);
      CleanStepsKeepItAble(s, ops[0]);
      if Doomed(next) {
        TheDoomedNeverReturn(next, ops[1..]);
      } else {
        ReturnsExactlyWhenCleanFrom(next, ops[1..]);
      }
    }
  }

  /** The deploy returns, and so saves, exactly on a clean list of steps: a stray commit is
      harmless after the last session statement, a stray rollback only after such a commit. */
  lemma ItSavesExactlyWhenClean(database: seq<nat>, ops: seq<Op>)
    ensures Deployed(AS_DEPLOYED, database, ops).returned <==> Clean(ops, false)
  {
    OnwardsIsSteps(AS_DEPLOYED, Began(database), ops);
    ReturnsExactlyWhenCleanFrom(Began(database), ops);
  }

  // ---------------------------------------------------------------- each setting is needed

  /** Steps that save part of a deploy which did not return. */
  function Escape(c: Settings): seq<Op> {
    if !c.rollbackOnly then [Execute([1]), SessionCommit, Raise]
    else if !c.autobeginOff then [Migrate([1]), SessionRollback, Execute([2]), SessionCommit]
    else [SessionRollback, Migrate([1])]
  }

  lemma TwoStepsOn(c: Settings, s: State, ops: seq<Op>)
    requires |ops| >= 2
    ensures Onwards(c, s, ops) == Onwards(c, Step(c, Step(c, s, ops[0]), ops[1]), ops[2..])
  {
    assert ops[1..][1..] == ops[2..];
  }

  /** Under a join that passes commits on, one commits the deploy's transaction early. */
  lemma ACommitPassedOnSaves(c: Settings)
    requires !c.rollbackOnly
    ensures Deployed(c, [], Escape(c)) == Outcome([1], false)
  {
    OnwardsIsSteps(c, Began([]), Escape(c));
    TwoStepsOn(c, Began([]), Escape(c));
    var two := Step(c, Step(c, Began([]), Execute([1])), SessionCommit);
    assert Step(c, Began([]), Execute([1])).deploy.value == [1];
    assert two.saved == [1];
    assert Escape(c)[2..] == [Raise] && [Raise][1..] == [];
    assert Onwards(c, two, [Raise]) == Step(c, two, Raise);
  }

  /** With autobegin on, a session rolled back begins a transaction of its own, and commits it. */
  lemma ASessionOfItsOwnSaves(c: Settings)
    requires c.rollbackOnly && !c.autobeginOff
    ensures Deployed(c, [], Escape(c)) == Outcome([2], false)
  {
    OnwardsIsSteps(c, Began([]), Escape(c));
    TwoStepsOn(c, Began([]), Escape(c));
    var two := Step(c, Step(c, Began([]), Migrate([1])), SessionRollback);
    assert Escape(c)[2..] == [Execute([2]), SessionCommit];
    TwoStepsOn(c, two, [Execute([2]), SessionCommit]);
    var three := Step(c, two, Execute([2]));
    assert three.other.value == [2] && three.owned;
    assert Step(c, three, SessionCommit).saved == [2];
    assert [Execute([2]), SessionCommit][2..] == [];
  }

  /** A runner handed a connection with no transaction lets Alembic begin one and commit it. */
  lemma AnUnbegunRunnerSaves(c: Settings)
    requires c.rollbackOnly && c.autobeginOff && !c.runnerBegins
    ensures Deployed(c, [], Escape(c)) == Outcome([1], false)
  {
    OnwardsIsSteps(c, Began([]), Escape(c));
    TwoStepsOn(c, Began([]), Escape(c));
    assert Step(c, Step(c, Began([]), SessionRollback), Migrate([1])).saved == [1];
    assert Escape(c)[2..] == [];
  }

  lemma TheEscapeSavesAPart(c: Settings)
    requires c != AS_DEPLOYED
    ensures !AllOrNothing([], Escape(c), Deployed(c, [], Escape(c)))
  {
    if !c.rollbackOnly {
      ACommitPassedOnSaves(c);
    } else if !c.autobeginOff {
      ASessionOfItsOwnSaves(c);
    } else {
      AnUnbegunRunnerSaves(c);
    }
  }

  /** All or nothing over every list of steps holds exactly under the three settings together. */
  lemma EachSettingIsNeeded(c: Settings)
    ensures (forall database, ops :: AllOrNothing(database, ops, Deployed(c, database, ops))) <==> c == AS_DEPLOYED
  {
    if c == AS_DEPLOYED {
      forall database, ops ensures AllOrNothing(database, ops, Deployed(c, database, ops)) {
        TheDeploySavesAllOrNothing(database, ops);
      }
    } else {
      TheEscapeSavesAPart(c);
    }
  }

  // ---------------------------------------------------------------- initialise_database

  lemma {:induction false} ARaiseIsFinal(s: State, ops: seq<Op>, i: nat)
    requires i <= |ops| && (i < |ops| ==> Steps(AS_DEPLOYED, s, ops[..i]).raised)
    ensures Steps(AS_DEPLOYED, s, ops) == Steps(AS_DEPLOYED, s, ops[..i])
    decreases |ops|
  {
    if i < |ops| {
      var init := ops[..|ops| - 1];
      assert init[..i] == ops[..i];
      ARaiseIsFinal(s, init, i);
    } else {
      assert ops[..i] == ops;
    }
  }

  /** The deploy's process: the database, the session in the registry's slot (a held one, the
      joined one, or none), and the transactions on its connection. */
  class Process {
    var database: seq<nat>
    var slot: Option<nat>
    var deploy: Option<seq<nat>>
    var other: Option<seq<nat>>
    var session: bool
    var pending: seq<nat>

    const JOINED: nat := 0

    constructor (database: seq<nat>, slot: Option<nat>)
      ensures this.database == database && this.slot == slot
    {
      this.database, this.slot := database, slot;
      deploy, other, session, pending := None, None, false, [];
    }

    ghost function Now(raised: bool): State
      reads this
    {
      State(database, deploy, other, false, session, pending, raised)
    }

    method RunOnConnection(writes: seq<nat>)
      modifies this`deploy, this`other
      ensures forall raised :: Now(raised) == OnConnection(old(Now(raised)), writes)
    {
      if deploy != None {
        deploy := Some(deploy.value + writes);
      } else if other != None {
        other := Some(other.value + writes);
      } else {
        other := Some([] + writes);
      }
    }

    /** A session statement; "Autobegin is disabled on this Session" when it holds no transaction. */
    method RunOnSession(writes: seq<nat>) returns (raised: bool)
      modifies this`deploy, this`other, this`pending
      ensures Now(raised) == OnSession(AS_DEPLOYED, old(Now(false)), writes)
    {
      if !session { return true; }
      RunOnConnection(pending + writes);
      pending := [];
      return false;
    }

    method RollBackTheSession()
      modifies this`deploy, this`other, this`session, this`pending
      ensures Now(false) == SessionRolledBack(old(Now(false)))
    {
      if session {
        session, pending := false, [];
        if deploy != None { deploy := None; } else { other := None; }
      }
    }

    method RunStep(op: Op) returns (raised: bool)
      modifies this`deploy, this`other, this`session, this`pending
      ensures Now(raised) == Step(AS_DEPLOYED, old(Now(false)), op)
    {
      raised := false;
      match op {
        case Execute(writes) => raised := RunOnSession(writes);
        case Stage(w) => pending := pending + [w];
        case Flush => if |pending| != 0 { raised := RunOnSession([]); }
        case SessionCommit =>
          raised := RunOnSession([]);
          if !raised { session := false; }
        case SessionRollback => RollBackTheSession();
        case ConnectionStatement(writes) => RunOnConnection(writes);
        case Migrate(writes) =>
          if deploy == None && other == None { other := Some([]); }
          RunOnConnection(writes);
        case Raise => raised := true;
      }
    }

    /** initialise_database: the slot is put back and the connection closed on every path. */
    method Initialise(ops: seq<Op>) returns (returned: bool)
      modifies this
      ensures Outcome(database, returned) == Deployed(AS_DEPLOYED, old(database), ops)
      ensures slot == old(slot) && deploy == None && other == None && !session
    {
      deploy, other := Some([]), None;
      var held := slot;
      session, pending, slot := true, [], Some(JOINED);
      var raised := false;
      var i := 0;
      assert ops[..0] == [];
      while i < |ops| && !raised
        invariant 0 <= i <= |ops| && database == old(database)
        invariant Now(raised) == Steps(AS_DEPLOYED, Began(database), ops[..i])
      {
        assert ops[..i + 1][..i] == ops[..i];
        raised := RunStep(ops[i]);
        i := i + 1;
      }
      ARaiseIsFinal(Began(database), ops, i);
      if !raised && |pending| != 0 { raised := RunOnSession([]); }
      session, slot := false, held;
      returned := !raised && deploy != None;
      if returned { database := database + deploy.value; }
      deploy, other := None, None;
    }
  }
}
