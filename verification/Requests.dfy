/** What a request's transactions are (app/db_transaction.py).

    One request, one session.  A request is a query or a command; the listener on after_begin
    binds each transaction the session opens by what the request has recorded on g, the hooks
    bind the one already open.  Other sessions commit at any moment.  A commit or rollback that
    raises leaves a transaction that serves no statement until it is rolled back. */
module Requests {
  import opened Wrappers

  datatype Kind = Query | Command

  /** The keys the request holds on flask.g. */
  datatype G = G(mode: Option<Kind>, actor: Option<nat>, pending: Option<Option<nat>>, owner: Option<nat>)

  const EMPTY_G := G(None, None, None, None)

  /** The session's open transaction: the actors its audit setting was bound to and the owners
      whose lock it took, in order; a query's snapshot, as how much had been saved; what it has
      written; whether it is past serving. */
  datatype Txn = Txn(kind: Kind, snapshot: nat, writes: seq<nat>, bound: seq<nat>, locked: seq<nat>, dead: bool)

  datatype Event =
    | QueryRead(version: nat)
    | CommandRead(seen: seq<nat>, locks: seq<nat>)
    | Wrote(what: nat, locks: seq<nat>)
    | WriteRefused
    | TxnEnded(kept: bool)
    | BlockEntered
    | BlockCommitted(version: nat)
    | BlockLeft

  /** `loaded` holds the users whose rows the session has loaded and not expired; `saved` is
      what every session has committed, in order, a version a length of it; `block` is set inside
      write_transaction(). */
  datatype State = State(g: G, txn: Option<Txn>, loaded: set<nat>, saved: seq<nat>, block: bool, trace: seq<Event>)

  /** Three orders the module keeps: the owner armed by the second hook and not the first, a block's
      mode restored before its rollback, the keys popped in `finally`. */
  datatype Rules = Rules(armedLate: bool, modeFirst: bool, poppedInFinally: bool)

  const AS_WRITTEN := Rules(true, true, true)

  datatype Action =
    | OtherCommit(what: nat)
    | LoadUser(user: nat)
    | Read
    | Write(what: nat, recovers: bool)
    | BeginNested
    | SessionCommit(raises: bool)
    | SessionRollback(raises: bool)
    | BindActor(user: nat, owner: Option<nat>)
    | TakeOwnerLock
    | SignIn(user: nat, owner: Option<nat>)
    | EnterBlock(rollbackRaises: bool)
    | LeaveBlock(bodyRaises: bool, commitRaises: bool, rollbackRaises: bool)

  // ---------------------------------------------------------------- the listener and the session

  function Listed(key: Option<nat>): seq<nat> {
    if key.Some? then [key.value] else []
  }

  /** after_begin on a transaction of the session's own: no mode recorded means command. */
  function Begun(g: G, version: nat): Txn {
    if g.mode == Some(Query) then Txn(Query, version, [], [], [], false)
    else Txn(Command, version, [], Listed(g.actor), Listed(g.owner), false)
  }

  function Opened(s: State): State {
    if s.txn.Some? then s else s.(txn := Some(Begun(s.g, |s.saved|)))
  }

  function Emit(s: State, e: Event): State {
    s.(trace := s.trace + [e])
  }

  /** A statement: one on a dead transaction raises and does nothing. */
  function Reads(s: State): State {
    var o := Opened(s);
    if o.txn.value.dead then o
    else if o.txn.value.kind.Query? then Emit(o, QueryRead(o.txn.value.snapshot))
    else Emit(o, CommandRead(s.saved + o.txn.value.writes, o.txn.value.locked))
  }

  /** A use of a user's row: no statement while it is loaded. */
  function Loads(s: State, user: nat): State {
    if user in s.loaded then s
    else
      var after := Reads(s);
      if after.txn.value.dead then after else after.(loaded := after.loaded + {user})
  }

  /** A write: READ ONLY refuses it, and unless it was behind a savepoint the transaction is aborted. */
  function Writes(s: State, what: nat, recovers: bool): State {
    var o := Opened(s);
    var t := o.txn.value;
    if t.dead then o
    else if t.kind.Query? then Emit(o.(txn := Some(t.(dead := !recovers))), WriteRefused)
    else Emit(o.(txn := Some(t.(writes := t.writes + [what]))), Wrote(what, t.locked))
  }

  /** A transaction's end expires every row the session had loaded. */
  function Ended(s: State, kept: bool): State {
    if s.txn.None? then s else Emit(s.(txn := None, loaded := {}), TxnEnded(kept))
  }

  function Killed(s: State): State {
    if s.txn.None? then s else s.(txn := Some(s.txn.value.(dead := true)))
  }

  function RolledBack(s: State, raises: bool): State {
    if raises then Killed(s) else Ended(s, false)
  }

  predicate CommitFails(s: State, raises: bool) {
    s.txn.Some? && (raises || s.txn.value.dead)
  }

  function Committed(s: State, raises: bool): State {
    if CommitFails(s, raises) then Killed(s)
    else if s.txn.None? then s
    else Ended(s.(saved := s.saved + s.txn.value.writes), true)
  }

  // ---------------------------------------------------------------- the hooks

  /** A hook's own bind of the transaction open before the request knew its actor or owner. */
  predicate BindsTheOpenOne(s: State) {
    s.g.mode != Some(Query) && s.txn.Some?
  }

  function ActorBound(s: State, user: nat, owner: Option<nat>, r: Rules): State {
    var g := s.g.(actor := Some(user), pending := Some(owner), owner := if r.armedLate then s.g.owner else owner);
    if BindsTheOpenOne(s) then s.(g := g, txn := Some(s.txn.value.(bound := s.txn.value.bound + [user])))
    else s.(g := g)
  }

  /** _lock_the_open_transaction: an owner not known takes nothing and arms nothing; under the lock
      the row of the user read before it is expired. */
  function OwnerLocked(s: State, user: Option<nat>, owner: Option<nat>): State {
    if owner.None? then s
    else
      var g := s.g.(owner := owner);
      if BindsTheOpenOne(s) then
        s.(g := g, txn := Some(s.txn.value.(locked := s.txn.value.locked + [owner.value])),
           loaded := if user.Some? then s.loaded - {user.value} else s.loaded)
      else s.(g := g)
  }

  function LockHook(s: State): State {
    if s.g.pending.None? then s else OwnerLocked(s.(g := s.g.(pending := None)), s.g.actor, s.g.pending.value)
  }

  /** The first hook runs before the other and once, sign-in where neither knew anybody; a
      statement they send on a dead transaction raises. */
  predicate HookMayRun(s: State) {
    !s.block && !(s.txn.Some? && s.txn.value.dead) && s.g.owner.None?
  }

  predicate Anonymous(s: State) {
    s.g.actor.None? && s.g.pending.None? && s.g.owner.None?
  }

  // ---------------------------------------------------------------- write_transaction()

  /** Entering: refused outside a query's own mode; a rollback that raises leaves the mode be. */
  function Entered(s: State, rollbackRaises: bool): State {
    if s.g.mode != Some(Query) then s
    else if rollbackRaises && s.txn.Some? then Killed(s)
    else Emit(Ended(s, false).(g := s.g.(mode := Some(Command)), block := true), BlockEntered)
  }

  /** Leaving: commit when the body ran through, then the mode, then a rollback of what did not. */
  function Left(s: State, bodyRaises: bool, commitRaises: bool, rollbackRaises: bool, r: Rules): State {
    var committed := !bodyRaises && !CommitFails(s, commitRaises);
    var closed := (if bodyRaises then s else Committed(s, commitRaises)).(block := false);
    var restored := closed.(g := closed.g.(mode := Some(Query)));
    if committed then Emit(Emit(restored, BlockCommitted(|restored.saved|)), BlockLeft)
    else if !r.modeFirst && rollbackRaises && closed.txn.Some? then Emit(RolledBack(closed, true), BlockLeft)
    else Emit(RolledBack(restored, rollbackRaises), BlockLeft)
  }

  function Step(s: State, a: Action, r: Rules): State {
    match a
    case OtherCommit(what) => s.(saved := s.saved + [what])
    case LoadUser(user) => Loads(s, user)
    case Read => Reads(s)
    case Write(what, recovers) => Writes(s, what, recovers)
    case BeginNested => Opened(s)
    case SessionCommit(raises) => Committed(s, raises)
    case SessionRollback(raises) => RolledBack(s, raises)
    case BindActor(user, owner) => if HookMayRun(s) && Anonymous(s) then ActorBound(s, user, owner, r) else s
    case TakeOwnerLock => if HookMayRun(s) then LockHook(s) else s
    case SignIn(user, owner) => if HookMayRun(s) && Anonymous(s) then OwnerLocked(s, Some(user), owner) else s
    case EnterBlock(raises) => Entered(s, raises)
    case LeaveBlock(body, commit, rollback) => if s.block then Left(s, body, commit, rollback, r) else s
  }

  function Run(s: State, actions: seq<Action>, r: Rules): State
    decreases |actions|
  {
    if actions == [] then s else Run(Step(s, actions[0], r), actions[1..], r)
  }

  /** A run is its actions one after another. */
  lemma {:induction false} ARunIsItsActionsInTurn(s: State, actions: seq<Action>, a: Action, r: Rules)
    ensures Run(s, [], r) == s
    ensures Run(s, actions + [a], r) == Step(Run(s, actions, r), a, r)
    decreases |actions|
  {
    if actions == [] {
      assert ([a] + [])[1..] == [];
    } else {
      assert (actions + [a])[1..] == actions[1..] + [a];
      ARunIsItsActionsInTurn(Step(s, actions[0], r), actions[1..], a, r);
    }
  }

  // ---------------------------------------------------------------- dispatch and teardown

  datatype Dispatch = Dispatched(state: State) | Refused(state: State) | Broken(state: State)

  /** request_started: a query ends what is open, unless it has written; its mode comes last. */
  function Started(s: State, query: bool, rollbackRaises: bool): Dispatch {
    if !query then Dispatched(s.(g := s.g.(mode := Some(Command))))
    else if s.txn.Some? && s.txn.value.writes != [] then Refused(s)
    else if s.txn.Some? && rollbackRaises then Broken(Killed(s))
    else Dispatched(Ended(s, false).(g := s.g.(mode := Some(Query))))
  }

  /** teardown_request: a dispatched request's transaction is rolled back; a rollback that raises
      leaves the function at once, and the keys are retired on that way out too by `finally`. */
  function TornDown(s: State, rollbackRaises: bool, r: Rules): State {
    if s.g.mode.None? then s.(g := EMPTY_G)
    else if rollbackRaises && s.txn.Some? then Killed(s).(g := if r.poppedInFinally then EMPTY_G else s.g)
    else Ended(s, false).(g := EMPTY_G)
  }

  /** What a request finds: nothing recorded, and at most a plain transaction of its context's. */
  predicate Fresh(s: State) {
    && s.g == EMPTY_G && !s.block && s.trace == [] && (s.txn.None? ==> s.loaded == {})
    && (s.txn.Some? ==> s.txn.value.kind == Command && s.txn.value.bound == [] && s.txn.value.locked == []
                        && s.txn.value.snapshot <= |s.saved|)
  }

  // ---------------------------------------------------------------- bound and locked exactly once

  /** The transaction open now is of the mode in force; a query's is bound to nobody, a command's
      to the actor once and locked for the owner once, as far as the request knows them. */
  ghost predicate TxnBound(s: State) {
    s.txn.Some? && !s.txn.value.dead ==>
      && Some(s.txn.value.kind) == s.g.mode
      && s.txn.value.snapshot <= |s.saved|
      && s.txn.value.bound == (if s.txn.value.kind.Query? then [] else Listed(s.g.actor))
      && s.txn.value.locked == (if s.txn.value.kind.Query? then [] else Listed(s.g.owner))
  }

  ghost predicate Inv(query: bool, s: State) {
    && (s.block ==> query)
    && s.g.mode == Some(if query && !s.block then Query else Command)
    && TxnBound(s)
    && (s.txn.None? ==> s.loaded == {})
  }

  lemma HooksKeep(query: bool, s: State, user: nat, owner: Option<nat>)
    requires Inv(query, s) && HookMayRun(s)
    ensures Anonymous(s) ==> Inv(query, ActorBound(s, user, owner, AS_WRITTEN))
    ensures Anonymous(s) ==> Inv(query, OwnerLocked(s, Some(user), owner))
    ensures Inv(query, LockHook(s))
  {
    assert [] + [user] == [user];
    if owner.Some? { assert [] + [owner.value] == [owner.value]; }
    if s.g.pending.Some? && s.g.pending.value.Some? {
      assert [] + [s.g.pending.value.value] == [s.g.pending.value.value];
    }
  }

  lemma SessionKeeps(query: bool, s: State, a: Action)
    requires Inv(query, s)
    requires a.OtherCommit? || a.LoadUser? || a.Read? || a.Write? || a.BeginNested?
          || a.SessionCommit? || a.SessionRollback?
    ensures Inv(query, Step(s, a, AS_WRITTEN))
  {
  }

  lemma BlockKeeps(query: bool, s: State, a: Action)
    requires Inv(query, s) && (a.EnterBlock? || a.LeaveBlock?)
    ensures Inv(query, Step(s, a, AS_WRITTEN))
  {
  }

  lemma StepKeeps(query: bool, s: State, a: Action)
    requires Inv(query, s)
    ensures Inv(query, Step(s, a, AS_WRITTEN))
  {
    match a
    case BindActor(user, owner) => if HookMayRun(s) { HooksKeep(query, s, user, owner); }
    case TakeOwnerLock => if HookMayRun(s) { HooksKeep(query, s, 0, None); }
    case SignIn(user, owner) => if HookMayRun(s) { HooksKeep(query, s, user, owner); }
    case EnterBlock(_) => BlockKeeps(query, s, a);
    case LeaveBlock(_, _, _) => BlockKeeps(query, s, a);
    case _ => SessionKeeps(query, s, a);
  }

  lemma {:induction false} RunKeeps(query: bool, s: State, actions: seq<Action>)
    requires Inv(query, s)
    ensures Inv(query, Run(s, actions, AS_WRITTEN))
    decreases |actions|
  {
    if actions == [] {
    } else {
      StepKeeps(query, s, actions[0]);
      RunKeeps(query, Step(s, actions[0], AS_WRITTEN), actions[1..]);
    }
  }

  /** In every dispatched request and on every path, raising ones included, the mode in force is
      the block's or the request's own, and the open transaction is bound as TxnBound says. */
  lemma EveryTransactionIsBoundOnce(s: State, query: bool, rollbackRaises: bool, actions: seq<Action>)
    requires Fresh(s) && Started(s, query, rollbackRaises).Dispatched?
    ensures Inv(query, Run(Started(s, query, rollbackRaises).state, actions, AS_WRITTEN))
  {
    RunKeeps(query, Started(s, query, rollbackRaises).state, actions);
  }

  ghost predicate Known(s: State, user: nat, owner: Option<nat>) {
    s.g.actor == Some(user) && s.g.pending.None? && s.g.owner == owner
  }

  lemma KnownStaysKnown(s: State, user: nat, owner: Option<nat>, a: Action)
    requires Known(s, user, owner)
    ensures Known(Step(s, a, AS_WRITTEN), user, owner)
  {
  }

  lemma {:induction false} TheKnownStayKnown(s: State, user: nat, owner: Option<nat>, actions: seq<Action>)
    requires Known(s, user, owner)
    ensures Known(Run(s, actions, AS_WRITTEN), user, owner)
    decreases |actions|
  {
    if actions == [] {
    } else {
      KnownStaysKnown(s, user, owner, actions[0]);
      TheKnownStayKnown(Step(s, actions[0], AS_WRITTEN), user, owner, actions[1..]);
    }
  }

  predicate TakesALock(a: Action) {
    a.TakeOwnerLock? || a.SignIn?
  }

  ghost predicate Pending(s: State, user: nat, owner: Option<nat>) {
    s.g.actor == Some(user) && s.g.pending == Some(owner) && s.g.owner.None?
  }

  lemma {:induction false} ThePendingStayPending(s: State, user: nat, owner: Option<nat>, actions: seq<Action>)
    requires Pending(s, user, owner) && forall a :: a in actions ==> !TakesALock(a)
    ensures Pending(Run(s, actions, AS_WRITTEN), user, owner)
    decreases |actions|
  {
    if actions == [] {
    } else {
      assert !TakesALock(actions[0]);
      ThePendingStayPending(Step(s, actions[0], AS_WRITTEN), user, owner, actions[1..]);
    }
  }

  /** Once both hooks have run, with the refusal checks' own statements between them, a command
      transaction open then or opened later is bound to the actor exactly once and locked for the
      owner exactly once; a query's never is. */
  lemma AfterTheHooks(query: bool, s: State, user: nat, owner: Option<nat>, checks: seq<Action>, actions: seq<Action>)
    requires Inv(query, s) && HookMayRun(s) && Anonymous(s)
    requires forall a :: a in checks ==> !TakesALock(a)
    requires HookMayRun(Run(ActorBound(s, user, owner, AS_WRITTEN), checks, AS_WRITTEN))
    ensures var checked := Run(Step(s, BindActor(user, owner), AS_WRITTEN), checks, AS_WRITTEN);
      var t := Run(Step(checked, TakeOwnerLock, AS_WRITTEN), actions, AS_WRITTEN);
      t.txn.Some? && !t.txn.value.dead ==>
        && t.txn.value.bound == (if t.txn.value.kind.Query? then [] else [user])
        && t.txn.value.locked == (if t.txn.value.kind.Query? then [] else Listed(owner))
  {
    var one := Step(s, BindActor(user, owner), AS_WRITTEN);
    var two := Run(one, checks, AS_WRITTEN);
    var three := Step(two, TakeOwnerLock, AS_WRITTEN);
    StepKeeps(query, s, BindActor(user, owner));
    RunKeeps(query, one, checks);
    ThePendingStayPending(one, user, owner, checks);
    StepKeeps(query, two, TakeOwnerLock);
    RunKeeps(query, three, actions);
    TheKnownStayKnown(three, user, owner, actions);
  }

  /** The events from n on: every statement of a command transaction ran under these locks. */
  ghost predicate RanUnder(trace: seq<Event>, n: nat, locks: seq<nat>) {
    forall i :: n <= i < |trace| && (trace[i].CommandRead? || trace[i].Wrote?) ==> trace[i].locks == locks
  }

  predicate Under(e: Event, locks: seq<nat>) {
    e.CommandRead? || e.Wrote? ==> e.locks == locks
  }

  lemma StatementAdds(query: bool, s: State, user: nat, owner: Option<nat>, a: Action) returns (added: seq<Event>)
    requires Inv(query, s) && Known(s, user, owner) && (a.LoadUser? || a.Read? || a.Write? || a.BeginNested?)
    ensures Step(s, a, AS_WRITTEN).trace == s.trace + added && forall e :: e in added ==> Under(e, Listed(owner))
  {
    var o := Opened(s);
    var t := o.txn.value;
    if a.BeginNested? || t.dead || (a.LoadUser? && a.user in s.loaded) {
      added := [];
    } else if t.kind.Query? {
      added := [if a.Write? then WriteRefused else QueryRead(t.snapshot)];
    } else {
      assert t.locked == Listed(owner);
      added := [if a.Write? then Wrote(a.what, t.locked) else CommandRead(s.saved + t.writes, t.locked)];
    }
  }

  /** Ending a transaction, or entering or leaving a block, runs no statement. */
  lemma EndingAdds(s: State, a: Action) returns (added: seq<Event>)
    requires a.SessionCommit? || a.SessionRollback? || a.EnterBlock?
    ensures Step(s, a, AS_WRITTEN).trace == s.trace + added && forall e :: e in added ==> !e.CommandRead? && !e.Wrote?
  {
    var after := Step(s, a, AS_WRITTEN);
    var ended := if s.txn.None? || after.txn.Some? then [] else [TxnEnded(a.SessionCommit?)];
    var entered :=
      if after.block && a.EnterBlock? && s.g.mode == Some(Query) && after.txn.None? then [BlockEntered] else [];
    added := ended + entered;
  }

  lemma LeavingAdds(s: State, a: Action) returns (added: seq<Event>)
    requires a.LeaveBlock? && s.block
    ensures Step(s, a, AS_WRITTEN).trace == s.trace + added && forall e :: e in added ==> !e.CommandRead? && !e.Wrote?
  {
    var after := Step(s, a, AS_WRITTEN);
    var kept := !a.bodyRaises && !CommitFails(s, a.commitRaises);
    var ended := if s.txn.Some? && after.txn.None? then [TxnEnded(kept)] else [];
    var committed := if kept then [BlockCommitted(|after.saved|)] else [];
    added := ended + committed + [BlockLeft];
  }

  lemma StepRunsUnderTheLock(query: bool, s: State, user: nat, owner: Option<nat>, a: Action)
    returns (added: seq<Event>)
    requires Inv(query, s) && Known(s, user, owner)
    ensures Step(s, a, AS_WRITTEN).trace == s.trace + added && forall e :: e in added ==> Under(e, Listed(owner))
  {
    match a
    case LoadUser(_) => added := StatementAdds(query, s, user, owner, a);
    case Read => added := StatementAdds(query, s, user, owner, a);
    case Write(_, _) => added := StatementAdds(query, s, user, owner, a);
    case BeginNested => added := StatementAdds(query, s, user, owner, a);
    case SessionCommit(_) => added := EndingAdds(s, a);
    case SessionRollback(_) => added := EndingAdds(s, a);
    case EnterBlock(_) => added := EndingAdds(s, a);
    case LeaveBlock(_, _, _) => if s.block { added := LeavingAdds(s, a); } else { added := []; }
    case _ => added := [];
  }

  lemma {:induction false} RunsUnderTheLock(query: bool, s: State, user: nat, owner: Option<nat>, actions: seq<Action>)
    returns (added: seq<Event>)
    requires Inv(query, s) && Known(s, user, owner)
    ensures Run(s, actions, AS_WRITTEN).trace == s.trace + added
    ensures forall e :: e in added ==> Under(e, Listed(owner))
    decreases |actions|
  {
    if actions == [] {
      added := [];
    } else {
      var first := StepRunsUnderTheLock(query, s, user, owner, actions[0]);
      StepKeeps(query, s, actions[0]);
      KnownStaysKnown(s, user, owner, actions[0]);
      var later := RunsUnderTheLock(query, Step(s, actions[0], AS_WRITTEN), user, owner, actions[1..]);
      added := first + later;
    }
  }

  /** From the lock hook on, every statement a command transaction of the request runs, a read or a
      write, in the transaction then open or a later one, runs under its owner's lock and no other.
      In a command request nothing read before the lock outlives it: the user's row is not loaded
      when the hook returns, so its next use reads it again. */
  lemma EveryLaterStatementIsLocked(query: bool, s: State, user: nat, owner: nat, actions: seq<Action>)
    requires Inv(query, s) && HookMayRun(s) && Pending(s, user, Some(owner))
    ensures var locked := Step(s, TakeOwnerLock, AS_WRITTEN);
      && RanUnder(Run(locked, actions, AS_WRITTEN).trace, |locked.trace|, [owner])
      && (!query ==> user !in locked.loaded)
  {
    var locked := Step(s, TakeOwnerLock, AS_WRITTEN);
    StepKeeps(query, s, TakeOwnerLock);
    var added := RunsUnderTheLock(query, locked, user, Some(owner), actions);
    var trace := Run(locked, actions, AS_WRITTEN).trace;
    forall i | |locked.trace| <= i < |trace| && (trace[i].CommandRead? || trace[i].Wrote?)
      ensures trace[i].locks == [owner]
    {
      assert trace[i] == added[i - |locked.trace|] && Under(added[i - |locked.trace|], Listed(Some(owner)));
    }
  }

  lemma {:induction false} NoHookNoOwner(s: State, actions: seq<Action>)
    requires s.g.owner.None? && forall a :: a in actions ==> !TakesALock(a)
    ensures Run(s, actions, AS_WRITTEN).g.owner.None?
    decreases |actions|
  {
    if actions == [] {
    } else {
      assert !TakesALock(actions[0]);
      NoHookNoOwner(Step(s, actions[0], AS_WRITTEN), actions[1..]);
    }
  }

  /** A request refused before the lock hook never holds a lock, whatever its hooks did. */
  lemma RefusedBeforeTheHookHoldsNothing(query: bool, s: State, actions: seq<Action>)
    requires Inv(query, s) && s.g.owner.None? && forall a :: a in actions ==> !TakesALock(a)
    ensures var t := Run(s, actions, AS_WRITTEN); t.txn.Some? && !t.txn.value.dead ==> t.txn.value.locked == []
  {
    RunKeeps(query, s, actions);
    NoHookNoOwner(s, actions);
  }

  ghost predicate HoldsNoLock(s: State) {
    s.txn.Some? ==> s.txn.value.locked == []
  }

  /** Whatever a request that knows no owner yet does short of its lock hook, it holds no lock. */
  ghost predicate RefusedRequestsHoldNothing(r: Rules) {
    forall s: State, actions: seq<Action> ::
      s.g.owner.None? && HoldsNoLock(s) && (forall a :: a in actions ==> !TakesALock(a)) ==>
        HoldsNoLock(Run(s, actions, r))
  }

  lemma OneActionShortOfTheHook(s: State, a: Action)
    requires s.g.owner.None? && HoldsNoLock(s) && !TakesALock(a)
    ensures var next := Step(s, a, AS_WRITTEN); next.g.owner.None? && HoldsNoLock(next)
  {
  }

  lemma {:induction false} ShortOfTheHookNothingIsLocked(s: State, actions: seq<Action>)
    requires s.g.owner.None? && HoldsNoLock(s) && forall a :: a in actions ==> !TakesALock(a)
    ensures HoldsNoLock(Run(s, actions, AS_WRITTEN))
    decreases |actions|
  {
    if actions == [] {
    } else {
      assert !TakesALock(actions[0]);
      OneActionShortOfTheHook(s, actions[0]);
      ShortOfTheHookNothingIsLocked(Step(s, actions[0], AS_WRITTEN), actions[1..]);
    }
  }

  /** A command request that its first hook armed, and that a check which read a row then refused. */
  const COMMAND_STARTS := State(EMPTY_G.(mode := Some(Command)), None, {}, [], false, [])
  const REFUSED_BY_A_CHECK := [BindActor(1, Some(1)), Read]

  /** So it is because the second hook arms the owner: armed by the first, a request refused between
      the two holds its owner's lock. */
  lemma ArmedEarlyARefusedRequestLocks()
    ensures RefusedRequestsHoldNothing(AS_WRITTEN)
    ensures !RefusedRequestsHoldNothing(AS_WRITTEN.(armedLate := false))
  {
    forall s: State, actions: seq<Action> |
        s.g.owner.None? && HoldsNoLock(s) && (forall a :: a in actions ==> !TakesALock(a))
      ensures HoldsNoLock(Run(s, actions, AS_WRITTEN))
    {
      ShortOfTheHookNothingIsLocked(s, actions);
    }
    var r := AS_WRITTEN.(armedLate := false);
    var one := Step(COMMAND_STARTS, BindActor(1, Some(1)), r);
    var two := Step(one, Read, r);
    assert two.txn.value.locked == [1];
    assert REFUSED_BY_A_CHECK[1..] == [Read] && [Read][1..] == [];
    assert Run(one, [Read], r) == two;
    assert Run(COMMAND_STARTS, REFUSED_BY_A_CHECK, r) == two;
  }

  /** After teardown nothing is recorded, and a dispatched request's transaction is ended or, when
      the rollback raised, dead. */
  lemma NothingSurvivesTeardown(query: bool, s: State, actions: seq<Action>, rollbackRaises: bool)
    requires Inv(query, s)
    ensures var t := TornDown(Run(s, actions, AS_WRITTEN), rollbackRaises, AS_WRITTEN);
      t.g == EMPTY_G && (t.txn.None? || (rollbackRaises && t.txn.value.dead))
  {
    RunKeeps(query, s, actions);
  }

  /** It takes the `finally`: without one, a request whose rollback raises leaves keys behind exactly
      when it was dispatched and has a transaction open. */
  lemma WithoutFinallyKeysOutlive(s: State, rollbackRaises: bool)
    ensures TornDown(s, rollbackRaises, AS_WRITTEN.(poppedInFinally := false)).g == EMPTY_G
       <==> !(rollbackRaises && s.g.mode.Some? && s.txn.Some?)
  {
  }

  /** A query is refused exactly when it finds a transaction that has written; the request records
      nothing, and those writes are still open after its teardown. */
  lemma RefusedExactlyOnUncommittedWrites(s: State, query: bool, rollbackRaises: bool, teardownRaises: bool)
    requires Fresh(s)
    ensures Started(s, query, rollbackRaises).Refused? <==> query && s.txn.Some? && s.txn.value.writes != []
    ensures Started(s, query, rollbackRaises).Refused? ==>
      TornDown(Started(s, query, rollbackRaises).state, teardownRaises, AS_WRITTEN) == s
  {
  }

  // ---------------------------------------------------------------- what a query's render sees

  /** Inside a write_transaction() block after these events. */
  predicate InBlock(trace: seq<Event>) {
    if trace == [] then false
    else
      match trace[|trace| - 1]
      case BlockEntered => true
      case BlockLeft => false
      case _ => InBlock(trace[..|trace| - 1])
  }

  ghost predicate EndsBetween(trace: seq<Event>, i: int, j: int) {
    exists k :: i < k < j && 0 <= k < |trace| && trace[k].TxnEnded?
  }

  /** Reads between two transaction ends come from one snapshot. */
  ghost predicate OneSnapshot(trace: seq<Event>) {
    forall i, j :: 0 <= i < j < |trace| && trace[i].QueryRead? && trace[j].QueryRead? && !EndsBetween(trace, i, j) ==>
      trace[i].version == trace[j].version
  }

  /** Snapshots never go back, and a read after a block that committed sees that block's commit. */
  ghost predicate Forward(trace: seq<Event>) {
    forall i, j :: 0 <= i < j < |trace| && (trace[i].QueryRead? || trace[i].BlockCommitted?) && trace[j].QueryRead? ==>
      trace[i].version <= trace[j].version
  }

  /** No write happens outside a block. */
  ghost predicate Fenced(trace: seq<Event>) {
    forall i :: 0 <= i < |trace| && trace[i].Wrote? ==> InBlock(trace[..i])
  }

  ghost predicate Bounded(trace: seq<Event>, limit: nat) {
    forall i :: 0 <= i < |trace| && (trace[i].QueryRead? || trace[i].BlockCommitted?) ==> trace[i].version <= limit
  }

  /** The reads since the last end are the open transaction's. */
  ghost predicate Current(s: State) {
    if s.txn.Some? && s.txn.value.kind.Query? then
      && s.txn.value.snapshot <= |s.saved|
      && Bounded(s.trace, s.txn.value.snapshot)
      && (forall i :: 0 <= i < |s.trace| && s.trace[i].QueryRead? && !EndsBetween(s.trace, i, |s.trace|) ==>
            s.trace[i].version == s.txn.value.snapshot)
    else
      forall i :: 0 <= i < |s.trace| && s.trace[i].QueryRead? ==> EndsBetween(s.trace, i, |s.trace|)
  }

  ghost predicate Rendered(s: State) {
    && OneSnapshot(s.trace) && Forward(s.trace) && Fenced(s.trace)
    && Bounded(s.trace, |s.saved|) && Current(s)
    && s.block == InBlock(s.trace)
  }

  lemma EndsBetweenAppends(trace: seq<Event>, e: Event, i: int, j: int)
    requires j <= |trace|
    ensures EndsBetween(trace + [e], i, j) <==> EndsBetween(trace, i, j)
    ensures 0 <= i < |trace| ==>
      (EndsBetween(trace + [e], i, |trace| + 1) <==> EndsBetween(trace, i, |trace|) || e.TxnEnded?)
  {
    if EndsBetween(trace, i, j) {
      var k :| i < k < j && 0 <= k < |trace| && trace[k].TxnEnded?;
      assert (trace + [e])[k].TxnEnded?;
    }
    if EndsBetween(trace, i, |trace|) {
      var k :| i < k < |trace| && 0 <= k < |trace| && trace[k].TxnEnded?;
      assert (trace + [e])[k].TxnEnded?;
    }
    if e.TxnEnded? { assert (trace + [e])[|trace|].TxnEnded?; }
  }

  /** The trace with one more event, a read being of a snapshot no earlier read or commit is past. */
  lemma EmitKeepsTheOrder(s: State, e: Event)
    requires Rendered(s)
    requires e.QueryRead? ==> s.txn.Some? && s.txn.value.kind.Query? && e.version == s.txn.value.snapshot
    requires e.Wrote? ==> s.block
    ensures OneSnapshot(s.trace + [e]) && Forward(s.trace + [e]) && Fenced(s.trace + [e])
  {
    var t := s.trace + [e];
    forall i, j | 0 <= i < j < |t| && t[i].QueryRead? && t[j].QueryRead? && !EndsBetween(t, i, j)
      ensures t[i].version == t[j].version
    {
      EndsBetweenAppends(s.trace, e, i, if j < |s.trace| then j else |s.trace|);
    }
    forall i | 0 <= i < |t| && t[i].Wrote? ensures InBlock(t[..i]) {
      assert t[..i] == s.trace[..i];
      assert i == |s.trace| ==> s.trace[..i] == s.trace;
    }
  }

  lemma EmitMovesTheBlock(trace: seq<Event>, e: Event)
    ensures InBlock(trace + [e]) == (if e.BlockEntered? then true else if e.BlockLeft? then false else InBlock(trace))
  {
    assert (trace + [e])[..|trace|] == trace;
  }

  /** An event that ends no transaction leaves the current reads as they were. */
  lemma EmitKeeps(s: State, e: Event)
    requires Rendered(s) && !e.TxnEnded? && !e.BlockCommitted?
    requires e.QueryRead? ==> s.txn.Some? && s.txn.value.kind.Query? && e.version == s.txn.value.snapshot
    requires e.Wrote? ==> s.block
    ensures Rendered(Emit(s, e).(block := InBlock(s.trace + [e])))
    ensures InBlock(s.trace + [e]) == (if e.BlockEntered? then true else if e.BlockLeft? then false else s.block)
  {
    EmitKeepsTheOrder(s, e);
    EmitMovesTheBlock(s.trace, e);
    var t := Emit(s, e);
    forall i | 0 <= i < |s.trace|
      ensures EndsBetween(t.trace, i, |t.trace|) <==> EndsBetween(s.trace, i, |s.trace|)
    {
      EndsBetweenAppends(s.trace, e, i, |s.trace|);
    }
  }

  lemma BoundedAppends(trace: seq<Event>, e: Event, limit: nat)
    requires Bounded(trace, limit) && (e.QueryRead? || e.BlockCommitted? ==> e.version <= limit)
    ensures Bounded(trace + [e], limit)
  {
  }

  lemma EndIsBehindEveryRead(trace: seq<Event>, i: nat, kept: bool)
    requires i < |trace|
    ensures EndsBetween(trace + [TxnEnded(kept)], i, |trace| + 1)
  {
    assert (trace + [TxnEnded(kept)])[|trace|].TxnEnded?;
  }

  lemma EndKeeps(s: State, kept: bool)
    requires Rendered(s)
    ensures Rendered(Ended(s, kept))
  {
    if s.txn.Some? {
      var t := Ended(s, kept);
      EmitKeepsTheOrder(s, TxnEnded(kept));
      EmitMovesTheBlock(s.trace, TxnEnded(kept));
      BoundedAppends(s.trace, TxnEnded(kept), |s.saved|);
      assert Current(t) by {
        forall i | 0 <= i < |t.trace| && t.trace[i].QueryRead? ensures EndsBetween(t.trace, i, |t.trace|) {
          EndIsBehindEveryRead(s.trace, i, kept);
        }
      }
    }
  }

  lemma CommittedBlockKeeps(s: State)
    requires Rendered(s) && s.txn.None?
    ensures Rendered(Emit(s, BlockCommitted(|s.saved|)))
  {
    var t := Emit(s, BlockCommitted(|s.saved|));
    EmitKeepsTheOrder(s, BlockCommitted(|s.saved|));
    EmitMovesTheBlock(s.trace, BlockCommitted(|s.saved|));
    forall i | 0 <= i < |t.trace| && t.trace[i].QueryRead? ensures EndsBetween(t.trace, i, |t.trace|) {
      EndsBetweenAppends(s.trace, BlockCommitted(|s.saved|), i, |s.trace|);
    }
  }

  lemma ReadRenders(s: State)
    requires Rendered(s) && s.txn.Some? && !s.txn.value.dead
    ensures Rendered(Reads(s))
  {
    var t := s.txn.value;
    EmitKeeps(s, if t.kind.Query? then QueryRead(t.snapshot) else CommandRead(s.saved + t.writes, t.locked));
  }

  lemma StatementRenders(s: State, a: Action)
    requires Inv(true, s) && Rendered(s) && (a.LoadUser? || a.Read? || a.Write? || a.BeginNested?)
    ensures Rendered(Step(s, a, AS_WRITTEN))
  {
    var o := Opened(s);
    assert Rendered(o);
    if !o.txn.value.dead {
      match a
      case LoadUser(_) => ReadRenders(o);
      case Read => ReadRenders(o);
      case Write(what, recovers) =>
        var e := if o.txn.value.kind.Query? then WriteRefused else Wrote(what, o.txn.value.locked);
        EmitKeeps(o, e);
      case BeginNested =>
    }
  }

  lemma CommitRenders(s: State, raises: bool)
    requires Rendered(s)
    ensures Rendered(Committed(s, raises)) && Rendered(Killed(s))
  {
    if s.txn.Some? { EndKeeps(s.(saved := s.saved + s.txn.value.writes), true); }
  }

  lemma LeaveRenders(s: State, bodyRaises: bool, commitRaises: bool, rollbackRaises: bool)
    requires Inv(true, s) && Rendered(s) && s.block
    ensures Rendered(Left(s, bodyRaises, commitRaises, rollbackRaises, AS_WRITTEN))
  {
    var committed := !bodyRaises && !CommitFails(s, commitRaises);
    var closed := if bodyRaises then s else Committed(s, commitRaises);
    CommitRenders(s, commitRaises);
    if committed {
      CommittedBlockKeeps(closed);
      EmitKeeps(Emit(closed, BlockCommitted(|closed.saved|)), BlockLeft);
    } else {
      EndKeeps(closed, false);
      CommitRenders(closed, false);
      EmitKeeps(RolledBack(closed, rollbackRaises), BlockLeft);
    }
  }

  lemma StepRenders(s: State, a: Action)
    requires Inv(true, s) && Rendered(s)
    ensures Rendered(Step(s, a, AS_WRITTEN))
  {
    match a
    case LoadUser(_) => StatementRenders(s, a);
    case Read => StatementRenders(s, a);
    case Write(_, _) => StatementRenders(s, a);
    case BeginNested => StatementRenders(s, a);
    case SessionCommit(raises) => CommitRenders(s, raises);
    case SessionRollback(raises) => CommitRenders(s, raises); EndKeeps(s, false);
    case EnterBlock(raises) =>
      if s.g.mode == Some(Query) {
        CommitRenders(s, raises);
        EndKeeps(s, false);
        EmitKeeps(Ended(s, false), BlockEntered);
      }
    case LeaveBlock(body, commit, rollback) => if s.block { LeaveRenders(s, body, commit, rollback); }
    case _ =>
  }

  lemma {:induction false} RunRenders(s: State, actions: seq<Action>)
    requires Inv(true, s) && Rendered(s)
    ensures Rendered(Run(s, actions, AS_WRITTEN))
    decreases |actions|
  {
    if actions == [] {
    } else {
      StepKeeps(true, s, actions[0]);
      StepRenders(s, actions[0]);
      RunRenders(Step(s, actions[0], AS_WRITTEN), actions[1..]);
    }
  }

  /** A query request with any number of blocks, whichever of body, commit and rollback raises:
      its reads between two transaction ends come from one snapshot, its snapshots only advance,
      a read after a block that committed sees its writes, and no write is made outside a block. */
  lemma AQueryRendersFromSnapshots(s: State, rollbackRaises: bool, actions: seq<Action>)
    requires Fresh(s) && Started(s, true, rollbackRaises).Dispatched?
    ensures var trace := Run(Started(s, true, rollbackRaises).state, actions, AS_WRITTEN).trace;
      OneSnapshot(trace) && Forward(trace) && Fenced(trace)
  {
    var d := Started(s, true, rollbackRaises).state;
    assert Rendered(s.(txn := None));
    EndKeeps(s, false);
    assert Rendered(d);
    RunRenders(d, actions);
  }

  // ---------------------------------------------------------------- a committed block is seen

  ghost predicate UndoneBetween(trace: seq<Event>, i: int, j: int) {
    exists k :: i < k < j && 0 <= k < |trace| && trace[k] == TxnEnded(false)
  }

  /** What was written at i is among the first `version` commits, and was not when any earlier read
      of the render was taken. */
  ghost predicate Landed(trace: seq<Event>, saved: seq<nat>, i: int, version: nat)
    requires 0 <= i < |trace| && trace[i].Wrote? && version <= |saved|
  {
    trace[i].what in saved[..version]
    && forall k :: 0 <= k < i && trace[k].QueryRead? ==> trace[k].version < version
  }

  /** A write not rolled back since is committed, or the open transaction still holds it. */
  ghost predicate Held(s: State) {
    forall i :: 0 <= i < |s.trace| && s.trace[i].Wrote? && !UndoneBetween(s.trace, i, |s.trace|) ==>
      Landed(s.trace, s.saved, i, |s.saved|) || (s.txn.Some? && s.trace[i].what in s.txn.value.writes)
  }

  /** What was written before a block committed, and not rolled back by then, had landed by then. */
  ghost predicate BlocksLanded(s: State) {
    forall i, c ::
      (0 <= i < c < |s.trace| && s.trace[i].Wrote? && s.trace[c].BlockCommitted? && !UndoneBetween(s.trace, i, c)) ==>
        s.trace[c].version <= |s.saved| && Landed(s.trace, s.saved, i, s.trace[c].version)
  }

  ghost predicate Published(s: State) {
    Held(s) && BlocksLanded(s) && Bounded(s.trace, |s.saved|)
  }

  lemma UndoneAppends(trace: seq<Event>, e: Event, i: int, j: int)
    requires 0 <= i < |trace| && j <= |trace|
    ensures UndoneBetween(trace + [e], i, j) <==> UndoneBetween(trace, i, j)
    ensures UndoneBetween(trace + [e], i, |trace| + 1) <==> UndoneBetween(trace, i, |trace|) || e == TxnEnded(false)
  {
    var t := trace + [e];
    forall k | 0 <= k < |trace| ensures t[k] == trace[k] {
    }
    if UndoneBetween(trace, i, |trace|) {
      var k :| i < k < |trace| && 0 <= k < |trace| && trace[k] == TxnEnded(false);
      assert t[k] == TxnEnded(false);
    }
    if UndoneBetween(trace, i, j) {
      var k :| i < k < j && 0 <= k < |trace| && trace[k] == TxnEnded(false);
      assert t[k] == TxnEnded(false);
    }
    if e == TxnEnded(false) { assert t[|trace|] == TxnEnded(false); }
  }

  lemma LandedAppends(trace: seq<Event>, e: Event, saved: seq<nat>, i: int, version: nat)
    requires 0 <= i < |trace| && trace[i].Wrote? && version <= |saved| && Landed(trace, saved, i, version)
    ensures Landed(trace + [e], saved, i, version)
  {
    assert (trace + [e])[i] == trace[i];
    forall k | 0 <= k < i && (trace + [e])[k].QueryRead? ensures (trace + [e])[k].version < version {
      assert (trace + [e])[k] == trace[k];
    }
  }

  /** One more event: a write the transaction holds, or a block's commit with nothing left to hold. */
  lemma EmitPublishes(s: State, e: Event)
    requires Published(s)
    requires e.QueryRead? || e.BlockCommitted? ==> e.version <= |s.saved|
    requires e.Wrote? ==> s.txn.Some? && e.what in s.txn.value.writes
    requires e.BlockCommitted? ==> s.txn.None? && e.version == |s.saved|
    ensures Published(Emit(s, e))
  {
    var t := Emit(s, e);
    BoundedAppends(s.trace, e, |s.saved|);
    EmitHolds(s, e);
    EmitLandsBlocks(s, e);
  }

  lemma EmitHolds(s: State, e: Event)
    requires Held(s) && (e.Wrote? ==> s.txn.Some? && e.what in s.txn.value.writes)
    ensures Held(Emit(s, e))
  {
    var t := Emit(s, e);
    forall i | 0 <= i < |t.trace| && t.trace[i].Wrote? && !UndoneBetween(t.trace, i, |t.trace|)
      ensures Landed(t.trace, t.saved, i, |t.saved|) || (t.txn.Some? && t.trace[i].what in t.txn.value.writes)
    {
      if i < |s.trace| {
        UndoneAppends(s.trace, e, i, |s.trace|);
        if Landed(s.trace, s.saved, i, |s.saved|) { LandedAppends(s.trace, e, s.saved, i, |s.saved|); }
      }
    }
  }

  lemma EmitLandsBlocks(s: State, e: Event)
    requires Held(s) && BlocksLanded(s)
    requires e.BlockCommitted? ==> s.txn.None? && e.version == |s.saved|
    ensures BlocksLanded(Emit(s, e))
  {
    var t := Emit(s, e);
    forall i, c | 0 <= i < c < |t.trace| && t.trace[i].Wrote? && t.trace[c].BlockCommitted?
                  && !UndoneBetween(t.trace, i, c)
      ensures t.trace[c].version <= |t.saved| && Landed(t.trace, t.saved, i, t.trace[c].version)
    {
      UndoneAppends(s.trace, e, i, c);
      if c < |s.trace| {
        assert Landed(s.trace, s.saved, i, s.trace[c].version);
        LandedAppends(s.trace, e, s.saved, i, s.trace[c].version);
      } else {
        assert Landed(s.trace, s.saved, i, |s.saved|);
        LandedAppends(s.trace, e, s.saved, i, |s.saved|);
      }
    }
  }

  /** More is committed, the open transaction's own writes among it when it ends by that. */
  lemma SavingPublishes(s: State, more: seq<nat>, t: State)
    requires Published(s) && t.saved == s.saved + more && t.trace == s.trace
    requires t.txn == s.txn || (s.txn.Some? && s.txn.value.writes == more)
    ensures Published(t)
  {
    forall i, c | 0 <= i < c < |t.trace| && t.trace[i].Wrote? && t.trace[c].BlockCommitted?
                  && !UndoneBetween(t.trace, i, c)
      ensures t.trace[c].version <= |t.saved| && Landed(t.trace, t.saved, i, t.trace[c].version)
    {
      assert Landed(s.trace, s.saved, i, s.trace[c].version);
      assert t.saved[..t.trace[c].version] == s.saved[..t.trace[c].version];
    }
    forall i | 0 <= i < |t.trace| && t.trace[i].Wrote? && !UndoneBetween(t.trace, i, |t.trace|)
      ensures Landed(t.trace, t.saved, i, |t.saved|) || (t.txn.Some? && t.trace[i].what in t.txn.value.writes)
    {
      assert t.saved[..|t.saved|] == t.saved && s.saved[..|s.saved|] == s.saved;
      if !Landed(s.trace, s.saved, i, |s.saved|) && t.txn != s.txn {
        assert s.trace[i].what in more;
      }
    }
  }

  /** The transaction's own record moves, without losing a write. */
  lemma KeepingTheWritesPublishes(s: State, t: State)
    requires Published(s) && t.saved == s.saved && t.trace == s.trace
    requires s.txn.Some? ==> t.txn.Some? && forall w :: w in s.txn.value.writes ==> w in t.txn.value.writes
    ensures Published(t)
  {
  }

  lemma UndoingPublishes(s: State)
    requires Published(s)
    ensures Published(Ended(s, false))
  {
    if s.txn.Some? {
      var e := TxnEnded(false);
      var t := Ended(s, false);
      BoundedAppends(s.trace, e, |s.saved|);
      EmitLandsBlocks(s, e);
      forall i | 0 <= i < |t.trace| && t.trace[i].Wrote? ensures UndoneBetween(t.trace, i, |t.trace|) {
        UndoneAppends(s.trace, e, i, |s.trace|);
      }
    }
  }

  lemma CommittingPublishes(s: State, raises: bool)
    requires Published(s)
    ensures Published(Committed(s, raises)) && Published(Killed(s))
  {
    KeepingTheWritesPublishes(s, Killed(s));
    if s.txn.Some? {
      var saved := s.(saved := s.saved + s.txn.value.writes, txn := None, loaded := {});
      SavingPublishes(s, s.txn.value.writes, saved);
      EmitPublishes(saved, TxnEnded(true));
    }
  }

  lemma StatementPublishes(s: State, a: Action)
    requires Inv(true, s) && Rendered(s) && Published(s) && (a.LoadUser? || a.Read? || a.Write? || a.BeginNested?)
    ensures Published(Step(s, a, AS_WRITTEN))
  {
    var o := Opened(s);
    KeepingTheWritesPublishes(s, o);
    var t := o.txn.value;
    if !t.dead {
      var read := if t.kind.Query? then QueryRead(t.snapshot) else CommandRead(o.saved + t.writes, t.locked);
      EmitPublishes(o, read);
      if a.LoadUser? && a.user !in s.loaded {
        KeepingTheWritesPublishes(Emit(o, read), Step(s, a, AS_WRITTEN));
      } else if a.Write? && t.kind.Query? {
        KeepingTheWritesPublishes(o, o.(txn := Some(t.(dead := !a.recovers))));
        EmitPublishes(o.(txn := Some(t.(dead := !a.recovers))), WriteRefused);
      } else if a.Write? {
        KeepingTheWritesPublishes(o, o.(txn := Some(t.(writes := t.writes + [a.what]))));
        EmitPublishes(o.(txn := Some(t.(writes := t.writes + [a.what]))), Wrote(a.what, t.locked));
      }
    }
  }

  lemma LeavingPublishes(s: State, bodyRaises: bool, commitRaises: bool, rollbackRaises: bool)
    requires Published(s)
    ensures Published(Left(s, bodyRaises, commitRaises, rollbackRaises, AS_WRITTEN))
  {
    CommittingPublishes(s, commitRaises);
    var closed := (if bodyRaises then s else Committed(s, commitRaises)).(block := false);
    var restored := closed.(g := closed.g.(mode := Some(Query)));
    assert Published(restored);
    if !bodyRaises && !CommitFails(s, commitRaises) {
      EmitPublishes(restored, BlockCommitted(|restored.saved|));
      EmitPublishes(Emit(restored, BlockCommitted(|restored.saved|)), BlockLeft);
    } else {
      CommittingPublishes(restored, true);
      UndoingPublishes(restored);
      EmitPublishes(RolledBack(restored, rollbackRaises), BlockLeft);
    }
  }

  lemma StepPublishes(s: State, a: Action)
    requires Inv(true, s) && Rendered(s) && Published(s)
    ensures Published(Step(s, a, AS_WRITTEN))
  {
    match a
    case OtherCommit(what) => SavingPublishes(s, [what], s.(saved := s.saved + [what]));
    case SessionCommit(raises) => CommittingPublishes(s, raises);
    case SessionRollback(raises) => CommittingPublishes(s, raises); UndoingPublishes(s);
    case EnterBlock(raises) =>
      CommittingPublishes(s, raises);
      UndoingPublishes(s);
      EmitPublishes(Ended(s, false), BlockEntered);
    case LeaveBlock(body, commit, rollback) => LeavingPublishes(s, body, commit, rollback);
    case BindActor(_, _) => KeepingTheWritesPublishes(s, Step(s, a, AS_WRITTEN));
    case TakeOwnerLock => KeepingTheWritesPublishes(s, Step(s, a, AS_WRITTEN));
    case SignIn(_, _) => KeepingTheWritesPublishes(s, Step(s, a, AS_WRITTEN));
    case _ => StatementPublishes(s, a);
  }

  lemma {:induction false} RunPublishes(s: State, actions: seq<Action>)
    requires Inv(true, s) && Rendered(s) && Published(s)
    ensures Rendered(Run(s, actions, AS_WRITTEN)) && Published(Run(s, actions, AS_WRITTEN))
    decreases |actions|
  {
    if actions == [] {
    } else {
      StepKeeps(true, s, actions[0]);
      StepRenders(s, actions[0]);
      StepPublishes(s, actions[0]);
      RunPublishes(Step(s, actions[0], AS_WRITTEN), actions[1..]);
    }
  }

  lemma AQueryStartsPublished(s: State, rollbackRaises: bool)
    requires Fresh(s) && Started(s, true, rollbackRaises).Dispatched?
    ensures var d := Started(s, true, rollbackRaises).state; Inv(true, d) && Rendered(d) && Published(d)
  {
    assert Rendered(s.(txn := None));
    EndKeeps(s, false);
  }

  lemma LandedIsSeen(s: State, i: nat, c: nat, j: nat)
    requires Published(s) && Forward(s.trace)
    requires i < c < j < |s.trace| && s.trace[i].Wrote? && s.trace[c].BlockCommitted? && s.trace[j].QueryRead?
    requires !UndoneBetween(s.trace, i, c)
    ensures s.trace[j].version <= |s.saved| && s.trace[i].what in s.saved[..s.trace[j].version]
    ensures forall k :: 0 <= k < i && s.trace[k].QueryRead? ==> s.trace[k].version < s.trace[j].version
  {
    var v, u := s.trace[c].version, s.trace[j].version;
    assert Landed(s.trace, s.saved, i, v) && v <= u <= |s.saved|;
    assert s.saved[..v] == s.saved[..u][..v];
  }

  /** Over every run of a query request, what is written in a block that commits, and not rolled back
      within it, is in what every later read of the render sees; and that is strictly more than any
      read before the write saw. */
  lemma ACommittedBlockIsSeen(s: State, rollbackRaises: bool, actions: seq<Action>, i: nat, c: nat, j: nat)
    requires Fresh(s) && Started(s, true, rollbackRaises).Dispatched?
    requires var trace := Run(Started(s, true, rollbackRaises).state, actions, AS_WRITTEN).trace;
      && i < c < j < |trace| && trace[i].Wrote? && trace[c].BlockCommitted? && trace[j].QueryRead?
      && !UndoneBetween(trace, i, c)
    ensures var after := Run(Started(s, true, rollbackRaises).state, actions, AS_WRITTEN);
      && after.trace[j].version <= |after.saved|
      && after.trace[i].what in after.saved[..after.trace[j].version]
      && forall k :: 0 <= k < i && after.trace[k].QueryRead? ==> after.trace[k].version < after.trace[j].version
  {
    AQueryStartsPublished(s, rollbackRaises);
    RunPublishes(Started(s, true, rollbackRaises).state, actions);
    LandedIsSeen(Run(Started(s, true, rollbackRaises).state, actions, AS_WRITTEN), i, c, j);
  }

  // ---------------------------------------------------------------- what each action does

  /** A read sees what had been saved when its query's snapshot was taken, or in a command what is
      saved now with its own writes; the first statement begins the transaction it reads in. */
  lemma AReadSees(s: State)
    ensures var s' := Step(s, Read, AS_WRITTEN);
      && s'.saved == s.saved && s'.g == s.g && s'.block == s.block
      && (s.txn.Some? && s.txn.value.dead ==> s' == s)
      && (s.txn.Some? && !s.txn.value.dead ==> s'.txn == s.txn)
      && (s.txn.Some? && !s.txn.value.dead && s.txn.value.kind == Query ==>
            s'.trace == s.trace + [QueryRead(s.txn.value.snapshot)])
      && (s.txn.Some? && !s.txn.value.dead && s.txn.value.kind == Command ==>
            s'.trace == s.trace + [CommandRead(s.saved + s.txn.value.writes, s.txn.value.locked)])
      && (s.txn.None? && s.g.mode == Some(Query) ==>
            s'.trace == s.trace + [QueryRead(|s.saved|)] && s'.txn == Some(Txn(Query, |s.saved|, [], [], [], false)))
      && (s.txn.None? && s.g.mode != Some(Query) ==>
            s'.txn.Some? && s'.txn.value.kind == Command && s'.txn.value.writes == [] && !s'.txn.value.dead
            && s'.txn.value.bound == (if s.g.actor.Some? then [s.g.actor.value] else [])
            && s'.txn.value.locked == (if s.g.owner.Some? then [s.g.owner.value] else [])
            && s'.trace == s.trace + [CommandRead(s.saved, s'.txn.value.locked)])
  {
    assert s.saved + [] == s.saved;
  }

  /** A write of an open transaction is staged in a command, refused in a query, and nothing is
      saved by it; one on a transaction past serving does nothing. */
  lemma AWriteIsStagedOrRefused(s: State, what: nat, recovers: bool)
    requires s.txn.Some?
    ensures var s', t := Step(s, Write(what, recovers), AS_WRITTEN), s.txn.value;
      if t.dead then s' == s
      else if t.kind == Query then
        s' == s.(txn := Some(t.(dead := !recovers)), trace := s.trace + [WriteRefused])
      else
        s' == s.(txn := Some(t.(writes := t.writes + [what])), trace := s.trace + [Wrote(what, t.locked)])
  {
  }

  /** A savepoint, a read or a write of a session with no transaction open begins one, bound by what
      is on g: a query's on a snapshot of what is saved, a command's to its actor and its owner. */
  lemma AFirstStatementBegins(s: State, what: nat, recovers: bool)
    ensures s.txn.Some? ==> Step(s, BeginNested, AS_WRITTEN) == s
    ensures s.txn.None? ==>
      var b := Step(s, BeginNested, AS_WRITTEN);
      && b == s.(txn := b.txn) && b.txn.Some? && b.txn.value.writes == [] && !b.txn.value.dead
      && b.txn.value.snapshot == |s.saved|
      && (s.g.mode == Some(Query) ==> b.txn.value.kind == Query && b.txn.value.bound == b.txn.value.locked == [])
      && (s.g.mode != Some(Query) ==>
            && b.txn.value.kind == Command
            && b.txn.value.bound == (if s.g.actor.Some? then [s.g.actor.value] else [])
            && b.txn.value.locked == (if s.g.owner.Some? then [s.g.owner.value] else []))
      && Step(s, Read, AS_WRITTEN) == Step(b, Read, AS_WRITTEN)
      && Step(s, Write(what, recovers), AS_WRITTEN) == Step(b, Write(what, recovers), AS_WRITTEN)
  {
  }

  /** A commit saves exactly what its transaction wrote, in order, after everything saved before; a
      new transaction then sees it.  One that raises saves nothing. */
  lemma ACommitSavesItsWrites(s: State, raises: bool)
    ensures var s' := Step(s, SessionCommit(raises), AS_WRITTEN);
      if s.txn.None? then s' == s
      else if raises || s.txn.value.dead then
        s'.saved == s.saved && s'.trace == s.trace && s'.txn == Some(s.txn.value.(dead := true)) && s'.g == s.g
      else
        && s'.saved == s.saved + s.txn.value.writes && s'.txn == None && s'.loaded == {}
        && s'.trace == s.trace + [TxnEnded(true)] && s'.g == s.g && s'.block == s.block
        && (s.g.mode == Some(Query) ==>
              Step(s', Read, AS_WRITTEN).trace == s'.trace + [QueryRead(|s.saved| + |s.txn.value.writes|)])
  {
  }

  /** A rollback saves nothing; one that raises leaves the transaction past serving. */
  lemma ARollbackSavesNothing(s: State, raises: bool)
    ensures var s' := Step(s, SessionRollback(raises), AS_WRITTEN);
      && s'.saved == s.saved && s'.g == s.g && s'.block == s.block
      && (s.txn.None? ==> s' == s)
      && (s.txn.Some? && raises ==> s'.txn == Some(s.txn.value.(dead := true)) && s'.trace == s.trace)
      && (s.txn.Some? && !raises ==> s'.txn == None && s'.loaded == {} && s'.trace == s.trace + [TxnEnded(false)])
  {
  }

  /** Another session's commit is saved after what was, and touches nothing of this one. */
  lemma AnotherSessionCommits(s: State, what: nat)
    ensures Step(s, OtherCommit(what), AS_WRITTEN) == s.(saved := s.saved + [what])
  {
  }

  /** A loaded row is used without a statement; one not loaded is read, and is loaded from then on. */
  lemma AUserIsLoadedOnce(s: State, user: nat)
    ensures var s' := Step(s, LoadUser(user), AS_WRITTEN);
      if user in s.loaded then s' == s
      else
        var read := Step(s, Read, AS_WRITTEN);
        s'.trace == read.trace && s'.txn == read.txn
        && (s.txn.Some? && s.txn.value.dead ==> s' == s)
        && (s.txn.Some? && !s.txn.value.dead ==> s'.loaded == s.loaded + {user})
  {
  }

  /** The first hook records actor and owner and binds an open command transaction, taking no lock. */
  lemma TheFirstHookBinds(s: State, user: nat, owner: Option<nat>)
    requires !s.block && (s.txn.None? || !s.txn.value.dead) && s.g.owner.None?
    requires s.g.actor.None? && s.g.pending.None?
    ensures var s' := Step(s, BindActor(user, owner), AS_WRITTEN);
      && s'.g == G(s.g.mode, Some(user), Some(owner), None)
      && s'.saved == s.saved && s'.trace == s.trace && s'.loaded == s.loaded && s'.block == s.block
      && s'.txn == (if s.txn.None? || s.g.mode == Some(Query) then s.txn
                    else Some(s.txn.value.(bound := s.txn.value.bound + [user])))
  {
  }

  /** The second takes the pending owner's lock on an open command transaction, expires the actor's
      row under it, and arms the owner; an actor with no owner takes nothing. */
  lemma TheSecondHookLocks(s: State)
    requires !s.block && (s.txn.None? || !s.txn.value.dead) && s.g.owner.None? && s.g.pending.Some?
    ensures var s', owner := Step(s, TakeOwnerLock, AS_WRITTEN), s.g.pending.value;
      && s'.g == s.g.(pending := None, owner := if owner.Some? then owner else s.g.owner)
      && s'.saved == s.saved && s'.trace == s.trace && s'.block == s.block
      && (owner.None? || s.txn.None? || s.g.mode == Some(Query) ==> s'.txn == s.txn && s'.loaded == s.loaded)
      && (owner.Some? && s.txn.Some? && s.g.mode != Some(Query) ==>
            && s'.txn == Some(s.txn.value.(locked := s.txn.value.locked + [owner.value]))
            && s'.loaded == if s.g.actor.Some? then s.loaded - {s.g.actor.value} else s.loaded)
  {
  }

  /** No hook runs in a block, on a transaction past serving or once the owner is known; the second
      needs an owner pending, the first and sign-in a request that knows nobody. */
  lemma AHookNotDueDoesNothing(s: State, user: nat, owner: Option<nat>)
    ensures s.block || (s.txn.Some? && s.txn.value.dead) || s.g.owner.Some? || s.g.pending.None? ==>
      Step(s, TakeOwnerLock, AS_WRITTEN) == s
    ensures s.block || (s.txn.Some? && s.txn.value.dead) || s.g.owner.Some? || s.g.pending.Some? || s.g.actor.Some? ==>
      Step(s, BindActor(user, owner), AS_WRITTEN) == s && Step(s, SignIn(user, owner), AS_WRITTEN) == s
  {
  }

  /** Sign-in locks the owner found, expires the person's row, and records no actor. */
  lemma ASignInLocks(s: State, user: nat, owner: nat)
    requires !s.block && (s.txn.None? || !s.txn.value.dead) && s.g.owner.None?
    requires s.g.actor.None? && s.g.pending.None?
    ensures var s' := Step(s, SignIn(user, Some(owner)), AS_WRITTEN);
      && s'.g == s.g.(owner := Some(owner)) && s'.saved == s.saved && s'.trace == s.trace
      && (s.txn.Some? && s.g.mode != Some(Query) ==>
            && s'.txn == Some(s.txn.value.(locked := s.txn.value.locked + [owner])) && s'.loaded == s.loaded - {user})
    ensures Step(s, SignIn(user, None), AS_WRITTEN) == s
  {
  }

  /** A block is entered from a query's mode alone, its snapshot ended first; nothing is refused and
      lost: a refused entry changes nothing. */
  lemma ABlockIsEnteredFromAQuery(s: State, raises: bool)
    ensures var s' := Step(s, EnterBlock(raises), AS_WRITTEN);
      && s'.saved == s.saved
      && (s.g.mode != Some(Query) ==> s' == s)
      && (s.g.mode == Some(Query) && s.txn.Some? && raises ==>
            s'.g == s.g && s'.block == s.block && s'.txn == Some(s.txn.value.(dead := true)))
      && (s.g.mode == Some(Query) && (s.txn.None? || !raises) ==>
            s'.g == s.g.(mode := Some(Command)) && s'.block && s'.txn == None
            && s'.trace == s.trace + (if s.txn.Some? then [TxnEnded(false)] else []) + [BlockEntered])
  {
  }

  /** A block left saves its transaction's writes exactly when its body ran through and its commit did
      not raise; the mode is the query's again either way. */
  lemma ABlockIsLeft(s: State, bodyRaises: bool, commitRaises: bool, rollbackRaises: bool)
    requires s.block && s.txn.Some?
    ensures var s' := Step(s, LeaveBlock(bodyRaises, commitRaises, rollbackRaises), AS_WRITTEN);
      && s'.g == s.g.(mode := Some(Query)) && !s'.block
      && if !bodyRaises && !commitRaises && !s.txn.value.dead then
           && s'.saved == s.saved + s.txn.value.writes && s'.txn == None
           && s'.trace == s.trace + [TxnEnded(true), BlockCommitted(|s'.saved|), BlockLeft]
         else
           && s'.saved == s.saved
           && if rollbackRaises then s'.txn.Some? && s'.txn.value.dead && s'.trace == s.trace + [BlockLeft]
              else s'.txn == None && s'.trace == s.trace + [TxnEnded(false), BlockLeft]
  {
  }

  /** A dispatched query begins with no transaction of anyone's; a command keeps the one it found. */
  lemma ARequestStarts(s: State, query: bool, rollbackRaises: bool)
    ensures var d := Started(s, query, rollbackRaises);
      && (!query ==> d == Dispatched(s.(g := s.g.(mode := Some(Command)))))
      && (query && s.txn.None? ==> d == Dispatched(s.(g := s.g.(mode := Some(Query)))))
      && (query && s.txn.Some? && s.txn.value.writes != [] ==> d == Refused(s))
      && (query && s.txn.Some? && s.txn.value.writes == [] && rollbackRaises ==>
            d == Broken(s.(txn := Some(s.txn.value.(dead := true)))))
      && (query && s.txn.Some? && s.txn.value.writes == [] && !rollbackRaises ==>
            d.Dispatched? && d.state.txn == None && d.state.saved == s.saved && d.state.g == s.g.(mode := Some(Query))
            && d.state.trace == s.trace + [TxnEnded(false)])
  {
  }

  /** A request's end saves nothing: what its dispatch left open is rolled back, and one that was
      never dispatched leaves what it found. */
  lemma ATeardownSavesNothing(s: State, rollbackRaises: bool)
    ensures var t := TornDown(s, rollbackRaises, AS_WRITTEN);
      && t.saved == s.saved && t.block == s.block && t.g == G(None, None, None, None)
      && (s.g.mode.None? || s.txn.None? ==> t.txn == s.txn && t.trace == s.trace)
      && (s.g.mode.Some? && s.txn.Some? && rollbackRaises ==>
            t.txn == Some(s.txn.value.(dead := true)) && t.trace == s.trace)
      && (s.g.mode.Some? && s.txn.Some? && !rollbackRaises ==> t.txn == None && t.trace == s.trace + [TxnEnded(false)])
  {
  }

  // ---------------------------------------------------------------- each order is needed

  /** No write outside a block, over every run of a query request. */
  ghost predicate WritesAreFenced(r: Rules) {
    forall s, rollbackRaises, actions :: Fresh(s) && Started(s, true, rollbackRaises).Dispatched? ==>
      Fenced(Run(Started(s, true, rollbackRaises).state, actions, r).trace)
  }

  /** A block whose body raises and whose rollback then raises, and the render going on. */
  const QUERY_STARTS := State(EMPTY_G.(mode := Some(Query)), None, {}, [], false, [])
  const BLOCK_FAILS := [EnterBlock(false), Read, LeaveBlock(true, false, true), SessionRollback(false), Write(9, false)]

  /** So it is because the mode is restored before the rollback: restored after it, a rollback that
      raises leaves the render able to write outside any block. */
  lemma RestoredLateARenderCanWrite()
    ensures WritesAreFenced(AS_WRITTEN)
    ensures !WritesAreFenced(AS_WRITTEN.(modeFirst := false))
  {
    forall s, rollbackRaises, actions | Fresh(s) && Started(s, true, rollbackRaises).Dispatched?
      ensures Fenced(Run(Started(s, true, rollbackRaises).state, actions, AS_WRITTEN).trace)
    {
      AQueryRendersFromSnapshots(s, rollbackRaises, actions);
    }
    ALateModeLetsItWrite();
    var idle := QUERY_STARTS.(g := EMPTY_G);
    assert Fresh(idle) && Started(idle, true, false) == Dispatched(QUERY_STARTS);
  }

  lemma ALateModeLetsItWrite()
    ensures !Fenced(Run(QUERY_STARTS, BLOCK_FAILS, AS_WRITTEN.(modeFirst := false)).trace)
  {
    var r := AS_WRITTEN.(modeFirst := false);
    var s1 := Step(QUERY_STARTS, BLOCK_FAILS[0], r);
    var s2 := Step(s1, BLOCK_FAILS[1], r);
    var s3 := Step(s2, BLOCK_FAILS[2], r);
    var s4 := Step(s3, BLOCK_FAILS[3], r);
    var s5 := Step(s4, BLOCK_FAILS[4], r);
    assert s3.g.mode == Some(Command) && s3.txn.Some? && s4.txn.None? && s4.g.mode == Some(Command);
    assert s4.trace == s2.trace + [BlockLeft] + [TxnEnded(false)];
    assert s5.trace == s4.trace + [Wrote(9, [])];
    RunOfFive(QUERY_STARTS, BLOCK_FAILS, r);
    EmitMovesTheBlock(s2.trace + [BlockLeft], TxnEnded(false));
    EmitMovesTheBlock(s2.trace, BlockLeft);
    assert s5.trace[..|s4.trace|] == s4.trace;
    assert s5.trace[|s4.trace|].Wrote?;
  }

  lemma RunOfFive(s: State, a: seq<Action>, r: Rules)
    requires |a| == 5
    ensures Run(s, a, r) == Step(Step(Step(Step(Step(s, a[0], r), a[1], r), a[2], r), a[3], r), a[4], r)
  {
    assert a[1..][1..] == a[2..] && a[2..][1..] == a[3..] && a[3..][1..] == a[4..] && a[4..][1..] == [];
    var two := Step(Step(s, a[0], r), a[1], r);
    var four := Step(Step(two, a[2], r), a[3], r);
    assert Run(four, a[4..], r) == Step(four, a[4], r);
    assert Run(two, a[2..], r) == Run(Step(two, a[2], r), a[3..], r) == Run(four, a[4..], r);
    assert Run(s, a, r) == Run(Step(s, a[0], r), a[1..], r) == Run(two, a[2..], r);
  }

  // ---------------------------------------------------------------- the module's functions

  /** The request's g and its session, written by the hooks in place. */
  class Request {
    var g: G
    var txn: Option<Txn>
    var loaded: set<nat>
    var saved: seq<nat>
    var block: bool
    ghost var trace: seq<Event>

    constructor (s: State)
      ensures Now() == s
    {
      g, txn, loaded, saved, block, trace := s.g, s.txn, s.loaded, s.saved, s.block, s.trace;
    }

    ghost function Now(): State
      reads this
    {
      State(g, txn, loaded, saved, block, trace)
    }

    /** The after_begin listener, and the statement's BEGIN that fired it. */
    method EnsureBegun()
      modifies this`txn
      ensures Now() == Opened(old(Now()))
    {
      if txn != None { return; }
      if g.mode == Some(Query) {
        txn := Some(Txn(Query, |saved|, [], [], [], false));
        return;
      }
      var bound: seq<nat>, locked: seq<nat> := [], [];
      if g.actor != None { bound := [g.actor.value]; }
      if g.owner != None { locked := [g.owner.value]; }
      txn := Some(Txn(Command, |saved|, [], bound, locked, false));
    }

    /** session.rollback(), and whether it raised. */
    method Rollback(raises: bool) returns (raised: bool)
      modifies this`txn, this`loaded, this`trace
      ensures Now() == RolledBack(old(Now()), raises) && raised == (raises && old(txn).Some?)
    {
      if txn == None { return false; }
      if raises {
        txn := Some(txn.value.(dead := true));
        return true;
      }
      txn, loaded, trace := None, {}, trace + [TxnEnded(false)];
      return false;
    }

    /** session.commit(), and whether it raised. */
    method Commit(raises: bool) returns (raised: bool)
      modifies this`txn, this`loaded, this`trace, this`saved
      ensures Now() == Committed(old(Now()), raises) && raised == CommitFails(old(Now()), raises)
    {
      if txn == None { return false; }
      if raises || txn.value.dead {
        txn := Some(txn.value.(dead := true));
        return true;
      }
      saved := saved + txn.value.writes;
      txn, loaded, trace := None, {}, trace + [TxnEnded(true)];
      return false;
    }

    /** _open_this_request_s_own_transaction; `refused` is UncommittedWriteAtRequestStart. */
    method Dispatch(query: bool, rollbackRaises: bool) returns (refused: bool, broke: bool)
      modifies this
      ensures Started(old(Now()), query, rollbackRaises)
           == if refused then Refused(Now()) else if broke then Broken(Now()) else Dispatched(Now())
    {
      refused, broke := false, false;
      if !query {
        g := g.(mode := Some(Command));
        return;
      }
      if txn != None {
        if |txn.value.writes| != 0 { return true, false; }
        broke := Rollback(rollbackRaises);
        if broke { return; }
      }
      g := g.(mode := Some(Query));
    }

    /** bind_request_actor: the open transaction first, g last. */
    method BindRequestActor(user: nat, owner: Option<nat>)
      modifies this
      ensures Now() == ActorBound(old(Now()), user, owner, AS_WRITTEN)
    {
      if g.mode != Some(Query) && txn != None {
        txn := Some(txn.value.(bound := txn.value.bound + [user]));
      }
      g := g.(actor := Some(user));
      g := g.(pending := Some(owner));
    }

    /** _lock_the_open_transaction: the lock, the user's row expired under it, then g. */
    method LockTheOpenTransaction(user: Option<nat>, owner: Option<nat>)
      modifies this
      ensures Now() == OwnerLocked(old(Now()), user, owner)
    {
      if owner == None { return; }
      if g.mode != Some(Query) && txn != None {
        txn := Some(txn.value.(locked := txn.value.locked + [owner.value]));
        if user != None && user.value in loaded {
          loaded := loaded - {user.value};
        }
      }
      g := g.(owner := owner);
    }

    /** _take_the_request_owner_s_lock. */
    method TakeTheRequestOwnersLock()
      modifies this
      ensures Now() == LockHook(old(Now()))
    {
      if g.pending == None { return; }
      var owner := g.pending.value;
      g := g.(pending := None);
      LockTheOpenTransaction(g.actor, owner);
    }

    /** write_transaction() up to its yield. */
    method EnterWriteTransaction(rollbackRaises: bool) returns (entered: bool)
      modifies this
      ensures Now() == Entered(old(Now()), rollbackRaises)
      ensures entered ==> block && g.mode == Some(Command) && txn == None
    {
      if g.mode != Some(Query) { return false; }
      var raised := Rollback(rollbackRaises);
      if raised { return false; }
      g := g.(mode := Some(Command));
      block, trace := true, trace + [BlockEntered];
      return true;
    }

    /** write_transaction() from its yield on: commit, and in `finally` the mode before the rollback. */
    method LeaveWriteTransaction(bodyRaises: bool, commitRaises: bool, rollbackRaises: bool)
      requires block
      modifies this
      ensures Now() == Left(old(Now()), bodyRaises, commitRaises, rollbackRaises, AS_WRITTEN)
      ensures g.mode == Some(Query)
    {
      var committed := false;
      if !bodyRaises {
        var raised := Commit(commitRaises);
        committed := !raised;
      }
      g := g.(mode := Some(Query));
      block := false;
      if committed {
        trace := trace + [BlockCommitted(|saved|)];
      } else {
        var raised := Rollback(rollbackRaises);
      }
      trace := trace + [BlockLeft];
    }

    method PopTheKeys()
      modifies this`g
      ensures g == EMPTY_G
    {
      g := g.(mode := None);
      g := g.(actor := None);
      g := g.(pending := None);
      g := g.(owner := None);
    }

    /** The teardown hook: it ends where the rollback raises or after it, the keys popped either way. */
    method Teardown(rollbackRaises: bool) returns (raised: bool)
      modifies this
      ensures Now() == TornDown(old(Now()), rollbackRaises, AS_WRITTEN)
      ensures raised == (rollbackRaises && old(g).mode.Some? && old(txn).Some?)
      ensures g == EMPTY_G
    {
      if g.mode != None {
        raised := Rollback(rollbackRaises);
        if raised {
          PopTheKeys();
          return;
        }
      }
      PopTheKeys();
      return false;
    }
  }
}
