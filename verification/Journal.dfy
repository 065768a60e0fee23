/** The balanced-journal rule (app/posting_infrastructure.py).

    Concurrent READ COMMITTED transactions append legs to journal entries and dispose of
    whole entries.  Each appended leg queues the deferred check of its entry, run at
    COMMIT; nothing is asked of a delete, and the runtime role is granted no UPDATE or DELETE
    on the ledger, so each statement that tries one fails.  An append holds its entry's FOR KEY SHARE to
    the transaction's end, a disposal holds it exclusively. */
module Journal {
  import opened Wrappers

  /** budget.account_postings: the owning entry and a nonzero amount in cents. */
  datatype Leg = Leg(entry: nat, amount: int)

  datatype Phase = Active | Committing | Failed

  datatype Txn = Txn(
    phase: Phase,
    created: set<nat>,
    disposed: set<nat>,
    added: seq<Leg>,
    shared: set<nat>,
    held: set<nat>,
    queue: set<nat>,
    checked: set<nat>)

  datatype System = System(entries: set<nat>, legs: seq<Leg>, open: map<nat, Txn>)

  datatype Action =
    | Begin(t: nat)
    | CreateEntry(t: nat, e: nat)
    | Append(t: nat, leg: Leg)
    | Dispose(t: nat, e: nat)
    | EditOrDeleteLeg(t: nat)
    | StartCommit(t: nat)
    | RunCheck(t: nat, e: nat)
    | Publish(t: nat)
    | Rollback(t: nat)

  // ---------------------------------------------------------------- sums and counts

  function SumOf(legs: seq<Leg>, e: nat): int {
    if legs == [] then 0
    else SumOf(legs[..|legs| - 1], e) + if legs[|legs| - 1].entry == e then legs[|legs| - 1].amount else 0
  }

  function CountOf(legs: seq<Leg>, e: nat): nat {
    if legs == [] then 0
    else CountOf(legs[..|legs| - 1], e) + if legs[|legs| - 1].entry == e then 1 else 0
  }

  function Total(legs: seq<Leg>): int {
    if legs == [] then 0 else Total(legs[..|legs| - 1]) + legs[|legs| - 1].amount
  }

  /** The legs of entries not disposed of. */
  function Keep(legs: seq<Leg>, disposed: set<nat>): seq<Leg> {
    if legs == [] then []
    else
      var last := legs[|legs| - 1];
      Keep(legs[..|legs| - 1], disposed) + if last.entry in disposed then [] else [last]
  }

  /** What the trigger requires of an entry: two legs or more, summing to zero. */
  predicate Balanced(legs: seq<Leg>, e: nat) {
    CountOf(legs, e) >= 2 && SumOf(legs, e) == 0
  }

  /** Every entry with a leg is balanced. */
  ghost predicate LedgerBalanced(legs: seq<Leg>) {
    forall e: nat :: CountOf(legs, e) == 0 || Balanced(legs, e)
  }

  lemma {:induction false} SumAppends(a: seq<Leg>, b: seq<Leg>, e: nat)
    ensures SumOf(a + b, e) == SumOf(a, e) + SumOf(b, e)
    ensures CountOf(a + b, e) == CountOf(a, e) + CountOf(b, e)
    ensures Total(a + b) == Total(a) + Total(b)
    decreases |b|
  {
    if b == [] {
      assert a + b == a;
    } else {
      assert (a + b)[..|a + b| - 1] == a + b[..|b| - 1];
      SumAppends(a, b[..|b| - 1], e);
    }
  }

  lemma {:induction false} KeepCounts(legs: seq<Leg>, disposed: set<nat>, e: nat)
    ensures CountOf(Keep(legs, disposed), e) == if e in disposed then 0 else CountOf(legs, e)
    ensures SumOf(Keep(legs, disposed), e) == if e in disposed then 0 else SumOf(legs, e)
  {
    if legs == [] {
    } else {
      var last := legs[|legs| - 1];
      var kept := Keep(legs[..|legs| - 1], disposed);
      KeepCounts(legs[..|legs| - 1], disposed, e);
      if last.entry in disposed {
        assert kept + [] == kept;
      } else {
        assert (kept + [last])[..|kept|] == kept;
      }
    }
  }

  lemma {:induction false} NoLegsNoSum(legs: seq<Leg>, e: nat)
    requires CountOf(legs, e) == 0
    ensures SumOf(legs, e) == 0
  {
    if legs == [] {
    } else {
      NoLegsNoSum(legs[..|legs| - 1], e);
    }
  }

  lemma {:induction false} KeepShortens(legs: seq<Leg>, disposed: set<nat>)
    ensures |Keep(legs, disposed)| <= |legs|
    ensures legs != [] && legs[|legs| - 1].entry in disposed ==> |Keep(legs, disposed)| < |legs|
  {
    if legs == [] {
    } else {
      KeepShortens(legs[..|legs| - 1], disposed);
    }
  }

  lemma {:induction false} TotalSplits(legs: seq<Leg>, e: nat)
    ensures Total(legs) == SumOf(legs, e) + Total(Keep(legs, {e}))
  {
    if legs == [] {
    } else {
      var last := legs[|legs| - 1];
      var kept := Keep(legs[..|legs| - 1], {e});
      TotalSplits(legs[..|legs| - 1], e);
      if last.entry == e {
        assert kept + [] == kept;
      } else {
        assert (kept + [last])[..|kept|] == kept;
      }
    }
  }

  /** When every entry balances, the whole ledger sums to zero. */
  lemma {:induction false} TrialBalance(legs: seq<Leg>)
    requires LedgerBalanced(legs)
    ensures Total(legs) == 0
    decreases |legs|
  {
    if legs == [] {
    } else {
      var e := legs[|legs| - 1].entry;
      TotalSplits(legs, e);
      KeepShortens(legs, {e});
      forall d: nat ensures CountOf(Keep(legs, {e}), d) == 0 || Balanced(Keep(legs, {e}), d) {
        KeepCounts(legs, {e}, d);
      }
      TrialBalance(Keep(legs, {e}));
      NoLegsNoSumOrBalanced(legs, e);
    }
  }

  lemma NoLegsNoSumOrBalanced(legs: seq<Leg>, e: nat)
    requires CountOf(legs, e) == 0 || Balanced(legs, e)
    ensures SumOf(legs, e) == 0
  {
    if CountOf(legs, e) == 0 { NoLegsNoSum(legs, e); }
  }

  // ---------------------------------------------------------------- the interleaved system

  function View(legs: seq<Leg>, x: Txn): seq<Leg> {
    Keep(legs, x.disposed) + x.added
  }

  predicate Exists(s: System, x: Txn, e: nat) {
    e in x.created || (e in s.entries && e !in x.disposed)
  }

  predicate Running(s: System, t: nat) {
    t in s.open && s.open[t].phase.Active?
  }

  /** No other transaction holds the entry exclusively. */
  predicate MayShare(s: System, t: nat, e: nat) {
    forall u :: u in s.open && u != t ==> e !in s.open[u].held
  }

  predicate MayHold(s: System, t: nat, e: nat) {
    forall u :: u in s.open && u != t ==> e !in s.open[u].held && e !in s.open[u].shared
  }

  function Put(s: System, t: nat, x: Txn): System {
    s.(open := s.open[t := x])
  }

  function Fail(x: Txn): Txn {
    x.(phase := Failed, created := {}, disposed := {}, added := [], queue := {}, checked := {})
  }

  function RunOne(s: System, x: Txn, e: nat): Txn {
    if Balanced(View(s.legs, x), e) then x.(queue := x.queue - {e}, checked := x.checked + {e}) else Fail(x)
  }

  function Disposing(x: Txn, e: nat): Txn {
    x.(created := x.created - {e}, disposed := x.disposed + {e}, added := Keep(x.added, {e}), held := x.held + {e})
  }

  function Step(s: System, a: Action): System {
    match a
    case Begin(t) => if t in s.open then s else Put(s, t, Txn(Active, {}, {}, [], {}, {}, {}, {}))
    case CreateEntry(t, e) =>
      if !Running(s, t) || !MayHold(s, t, e) then s
      else if Exists(s, s.open[t], e) then Put(s, t, Fail(s.open[t]))
      else Put(s, t, s.open[t].(created := s.open[t].created + {e}, held := s.open[t].held + {e}))
    case Append(t, leg) =>
      if !Running(s, t) || !MayShare(s, t, leg.entry) then s
      else if leg.amount == 0 || !Exists(s, s.open[t], leg.entry) then Put(s, t, Fail(s.open[t]))
      else Put(s, t, s.open[t].(added := s.open[t].added + [leg], shared := s.open[t].shared + {leg.entry},
                                queue := s.open[t].queue + {leg.entry}))
    case Dispose(t, e) =>
      if !Running(s, t) || !MayHold(s, t, e) || !Exists(s, s.open[t], e) then s
      else Put(s, t, Disposing(s.open[t], e))
    case EditOrDeleteLeg(t) => if Running(s, t) then Put(s, t, Fail(s.open[t])) else s
    case StartCommit(t) => if Running(s, t) then Put(s, t, s.open[t].(phase := Committing)) else s
    case RunCheck(t, e) =>
      if t in s.open && s.open[t].phase.Committing? && e in s.open[t].queue
      then Put(s, t, RunOne(s, s.open[t], e)) else s
    case Publish(t) =>
      if t in s.open && s.open[t].phase.Committing? && s.open[t].queue == {} then
        System((s.entries - s.open[t].disposed) + s.open[t].created, View(s.legs, s.open[t]), s.open - {t})
      else s
    case Rollback(t) => s.(open := s.open - {t})
  }

  function Run(s: System, actions: seq<Action>): System
    decreases |actions|
  {
    if actions == [] then s else Run(Step(s, actions[0]), actions[1..])
  }

  /** A run is its actions one after another. */
  lemma {:induction false} ARunIsItsActionsInTurn(s: System, actions: seq<Action>, a: Action)
    ensures Run(s, []) == s
    ensures Run(s, actions + [a]) == Step(Run(s, actions), a)
    decreases |actions|
  {
    if actions == [] {
      assert ([a] + [])[1..] == [];
    } else {
      assert (actions + [a])[1..] == actions[1..] + [a];
      ARunIsItsActionsInTurn(Step(s, actions[0]), actions[1..], a);
    }
  }

  // ---------------------------------------------------------------- the invariant

  /** A transaction's appends are accounted for: each to be checked still, or checked and balanced
      in its view, which no other transaction can unbalance while it holds its locks. */
  ghost predicate TxnOk(s: System, x: Txn) {
    && x.disposed <= x.held && x.queue <= x.shared
    && (forall e: nat :: CountOf(x.added, e) > 0 ==> e in x.shared && (e in x.queue || e in x.checked))
    && (forall e: nat :: e in x.checked ==> e in x.shared && Balanced(View(s.legs, x), e))
    && (x.phase.Committing? || x.checked == {})
  }

  ghost predicate Apart(x: Txn, y: Txn) {
    x.held !! y.held && x.held !! y.shared && x.shared !! y.held
  }

  ghost predicate Inv(s: System) {
    && LedgerBalanced(s.legs)
    && (forall t :: t in s.open ==> TxnOk(s, s.open[t]))
    && (forall t, u :: t in s.open && u in s.open && t != u ==> Apart(s.open[t], s.open[u]))
  }

  lemma ViewCounts(legs: seq<Leg>, x: Txn, e: nat)
    ensures CountOf(View(legs, x), e) == (if e in x.disposed then 0 else CountOf(legs, e)) + CountOf(x.added, e)
    ensures SumOf(View(legs, x), e) == (if e in x.disposed then 0 else SumOf(legs, e)) + SumOf(x.added, e)
  {
    KeepCounts(legs, x.disposed, e);
    SumAppends(Keep(legs, x.disposed), x.added, e);
  }

  lemma PutKeeps(s: System, t: nat, x: Txn)
    requires Inv(s) && TxnOk(s, x)
    requires forall u :: u in s.open && u != t ==> Apart(x, s.open[u])
    ensures Inv(Put(s, t, x))
  {
    var s' := Put(s, t, x);
    forall u | u in s'.open ensures TxnOk(s', s'.open[u]) {
      if u != t { assert TxnOk(s, s.open[u]); }
    }
    forall u, w | u in s'.open && w in s'.open && u != w
      ensures Apart(s'.open[u], s'.open[w])
    {
      if u == t { assert Apart(x, s.open[w]); } else if w == t { assert Apart(x, s.open[u]); }
    }
  }

  lemma FailKeeps(s: System, t: nat)
    requires Inv(s) && t in s.open
    ensures Inv(Put(s, t, Fail(s.open[t])))
  {
    PutKeeps(s, t, Fail(s.open[t]));
  }

  lemma CreateKeeps(s: System, t: nat, e: nat)
    requires Inv(s) && Running(s, t) && MayHold(s, t, e)
    ensures Inv(Put(s, t, s.open[t].(created := s.open[t].created + {e}, held := s.open[t].held + {e})))
  {
    var x := s.open[t];
    var y := x.(created := x.created + {e}, held := x.held + {e});
    assert View(s.legs, y) == View(s.legs, x);
    PutKeeps(s, t, y);
  }

  lemma StartCommitKeeps(s: System, t: nat)
    requires Inv(s) && Running(s, t)
    ensures Inv(Put(s, t, s.open[t].(phase := Committing)))
  {
    var y := s.open[t].(phase := Committing);
    assert View(s.legs, y) == View(s.legs, s.open[t]);
    PutKeeps(s, t, y);
  }

  lemma AppendKeeps(s: System, t: nat, leg: Leg)
    requires Inv(s) && Running(s, t) && MayShare(s, t, leg.entry)
    ensures Inv(Put(s, t, s.open[t].(added := s.open[t].added + [leg], shared := s.open[t].shared + {leg.entry},
                                     queue := s.open[t].queue + {leg.entry})))
  {
    var x := s.open[t];
    var y := x.(added := x.added + [leg], shared := x.shared + {leg.entry}, queue := x.queue + {leg.entry});
    forall e: nat | CountOf(y.added, e) > 0 ensures e in y.shared && (e in y.queue || e in y.checked) {
      assert y.added[..|x.added|] == x.added;
    }
    PutKeeps(s, t, y);
  }

  lemma DisposeKeeps(s: System, t: nat, e: nat)
    requires Inv(s) && Running(s, t) && MayHold(s, t, e)
    ensures Inv(Put(s, t, s.open[t].(created := s.open[t].created - {e}, disposed := s.open[t].disposed + {e},
                                     added := Keep(s.open[t].added, {e}), held := s.open[t].held + {e})))
  {
    var x := s.open[t];
    var y := x.(created := x.created - {e}, disposed := x.disposed + {e}, added := Keep(x.added, {e}),
                held := x.held + {e});
    forall d: nat | CountOf(y.added, d) > 0 ensures d in y.shared && (d in y.queue || d in y.checked) {
      KeepCounts(x.added, {e}, d);
    }
    PutKeeps(s, t, y);
  }

  lemma CheckKeeps(s: System, t: nat, e: nat)
    requires Inv(s) && t in s.open && s.open[t].phase.Committing? && e in s.open[t].queue
    ensures Inv(Put(s, t, RunOne(s, s.open[t], e)))
  {
    var x := s.open[t];
    var y := RunOne(s, x, e);
    assert View(s.legs, x.(queue := x.queue - {e}, checked := x.checked + {e})) == View(s.legs, x);
    PutKeeps(s, t, y);
  }

  /** A publish moves no entry's balance as others see it: what x appends to an entry another
      transaction shares adds to zero. */
  lemma PublishLeavesOthersSound(s: System, x: Txn, y: Txn, s': System)
    requires LedgerBalanced(s.legs) && TxnOk(s, x) && TxnOk(s, y) && Apart(x, y)
    requires x.queue == {} && s'.legs == View(s.legs, x)
    ensures TxnOk(s', y)
  {
    forall e: nat | e in y.checked ensures Balanced(View(s'.legs, y), e) {
      ViewCounts(s.legs, x, e);
      ViewCounts(s.legs, y, e);
      ViewCounts(s'.legs, y, e);
      assert Balanced(View(s.legs, y), e) && e !in x.disposed;
      NoLegsNoSumOrBalanced(s.legs, e);
      if CountOf(x.added, e) == 0 { NoLegsNoSum(x.added, e); } else { assert Balanced(View(s.legs, x), e); }
    }
  }

  lemma PublishKeeps(s: System, t: nat, s': System)
    requires Inv(s) && t in s.open && s.open[t].queue == {}
    requires s'.legs == View(s.legs, s.open[t]) && s'.open == s.open - {t}
    ensures Inv(s')
  {
    var x := s.open[t];
    forall e: nat ensures CountOf(s'.legs, e) == 0 || Balanced(s'.legs, e) {
      ViewCounts(s.legs, x, e);
      if CountOf(x.added, e) > 0 {
        assert Balanced(View(s.legs, x), e);
      } else {
        NoLegsNoSum(x.added, e);
        assert CountOf(s.legs, e) == 0 || Balanced(s.legs, e);
      }
    }
    forall u | u in s'.open ensures TxnOk(s', s'.open[u]) {
      PublishLeavesOthersSound(s, x, s.open[u], s');
    }
  }

  lemma StepKeeps(s: System, a: Action)
    requires Inv(s)
    ensures Inv(Step(s, a))
  {
    match a
    case Begin(t) => if t !in s.open { PutKeeps(s, t, Txn(Active, {}, {}, [], {}, {}, {}, {})); }
    case CreateEntry(t, e) =>
      if Running(s, t) && MayHold(s, t, e) {
        FailKeeps(s, t);
        CreateKeeps(s, t, e);
      }
    case Append(t, leg) =>
      if Running(s, t) && MayShare(s, t, leg.entry) {
        FailKeeps(s, t);
        AppendKeeps(s, t, leg);
      }
    case Dispose(t, e) => if Running(s, t) && MayHold(s, t, e) { DisposeKeeps(s, t, e); }
    case EditOrDeleteLeg(t) => if Running(s, t) { FailKeeps(s, t); }
    case StartCommit(t) => if Running(s, t) { StartCommitKeeps(s, t); }
    case RunCheck(t, e) =>
      if t in s.open && s.open[t].phase.Committing? && e in s.open[t].queue { CheckKeeps(s, t, e); }
    case Publish(t) =>
      if t in s.open && s.open[t].phase.Committing? && s.open[t].queue == {} {
        PublishKeeps(s, t, Step(s, Publish(t)));
      }
    case Rollback(t) =>
  }

  lemma {:induction false} RunKeeps(s: System, actions: seq<Action>)
    requires Inv(s)
    ensures Inv(Run(s, actions))
    decreases |actions|
  {
    if actions == [] {
    } else {
      StepKeeps(s, actions[0]);
      RunKeeps(Step(s, actions[0]), actions[1..]);
    }
  }

  /** Over every interleaving, each committed entry with a leg has at least two, summing to zero,
      and the whole ledger sums to zero. */
  lemma LedgerStaysBalanced(entries: set<nat>, legs: seq<Leg>, actions: seq<Action>)
    requires LedgerBalanced(legs)
    ensures var after := Run(System(entries, legs, map[]), actions).legs;
      forall e: nat :: CountOf(after, e) == 0 || (CountOf(after, e) >= 2 && SumOf(after, e) == 0)
    ensures Total(Run(System(entries, legs, map[]), actions).legs) == 0
  {
    RunKeeps(System(entries, legs, map[]), actions);
    TrialBalance(Run(System(entries, legs, map[]), actions).legs);
  }

  // ---------------------------------------------------------------- what each action does

  function Places(legs: seq<Leg>, e: nat): set<int> {
    set i | 0 <= i < |legs| && legs[i].entry == e
  }

  /** The count of an entry's legs is the number of places it has in the ledger. */
  lemma {:induction false} LegsAreCounted(legs: seq<Leg>, e: nat)
    ensures CountOf(legs, e) == |Places(legs, e)|
  {
    if legs == [] {
      assert Places(legs, e) == {};
    } else {
      var n := |legs| - 1;
      LegsAreCounted(legs[..n], e);
      assert Places(legs, e) == Places(legs[..n], e) + if legs[n].entry == e then {n} else {};
    }
  }

  /** The sum of an entry's legs, one leg more at a time. */
  lemma LegsAreSummed(legs: seq<Leg>, leg: Leg, e: nat)
    ensures SumOf([], e) == 0
    ensures SumOf(legs + [leg], e) == SumOf(legs, e) + if leg.entry == e then leg.amount else 0
  {
    assert (legs + [leg])[..|legs|] == legs;
  }

  /** Disposal takes every leg of the entries disposed of and no other. */
  lemma {:induction false} KeepIsExact(legs: seq<Leg>, disposed: set<nat>, leg: Leg)
    ensures multiset(Keep(legs, disposed))[leg] == if leg.entry in disposed then 0 else multiset(legs)[leg]
  {
    if legs == [] {
    } else {
      var n := |legs| - 1;
      assert legs == legs[..n] + [legs[n]];
      KeepIsExact(legs[..n], disposed, leg);
    }
  }

  /** Nothing but transaction t's own record has moved. */
  ghost predicate OnlyMoves(s: System, s': System, t: nat) {
    && s'.entries == s.entries && s'.legs == s.legs && t in s.open && t in s'.open
    && (forall u :: u != t ==> (u in s'.open <==> u in s.open))
    && (forall u :: u != t && u in s.open ==> s'.open[u] == s.open[u])
  }

  ghost predicate Raised(s: System, s': System, t: nat) {
    && OnlyMoves(s, s', t) && s'.open[t].phase == Failed
    && s'.open[t].created == {} && s'.open[t].disposed == {} && s'.open[t].added == [] && s'.open[t].queue == {}
  }

  /** The entry stands for this transaction: its own, or a committed one it has not disposed of. */
  predicate Stands(s: System, t: nat, e: nat)
    requires t in s.open
  {
    e in s.open[t].created || (e in s.entries && !(e in s.open[t].disposed))
  }

  /** An append waits for a disposal of its entry; otherwise it is refused exactly when the amount is
      zero or the entry does not stand, and what is taken is that leg, as given, and its check. */
  lemma AnAppendIsTakenExactlyWhen(s: System, t: nat, leg: Leg)
    requires t in s.open && s.open[t].phase == Active
    ensures var x, s' := s.open[t], Step(s, Append(t, leg));
      if exists u :: u in s.open && u != t && leg.entry in s.open[u].held then s' == s
      else if leg.amount == 0 || !Stands(s, t, leg.entry) then Raised(s, s', t)
      else
        && OnlyMoves(s, s', t) && View(s'.legs, s'.open[t]) == View(s.legs, x) + [leg]
        && s'.open[t].phase == Active && s'.open[t].queue == x.queue + {leg.entry}
        && s'.open[t].created == x.created && s'.open[t].disposed == x.disposed
  {
    var x, y := s.open[t], Step(s, Append(t, leg)).open[t];
    assert y.added == x.added + [leg] && y.disposed == x.disposed ==> View(s.legs, y) == View(s.legs, x) + [leg];
  }

  /** A disposal waits for every other user of the entry; then the entry and all its legs are gone
      from the transaction's view, nothing else is, and no check is taken off the queue. */
  lemma ADisposalTakesTheWholeEntry(s: System, t: nat, e: nat, leg: Leg)
    requires t in s.open && s.open[t].phase == Active
    ensures var x, s' := s.open[t], Step(s, Dispose(t, e));
      if !Stands(s, t, e) || exists u :: u in s.open && u != t && (e in s.open[u].held || e in s.open[u].shared)
      then s' == s
      else
        && OnlyMoves(s, s', t) && !Stands(s', t, e) && s'.open[t].phase == Active && s'.open[t].queue == x.queue
        && multiset(View(s'.legs, s'.open[t]))[leg] == (if leg.entry == e then 0 else multiset(View(s.legs, x))[leg])
        && (forall d :: d != e ==> (Stands(s', t, d) <==> Stands(s, t, d)))
  {
    if Stands(s, t, e) && MayHold(s, t, e) {
      var x := s.open[t];
      var y := Disposing(x, e);
      assert Step(s, Dispose(t, e)) == Put(s, t, y);
      AfterDisposal(s.legs, x, y, e, leg);
    } else {
      assert Step(s, Dispose(t, e)) == s;
    }
  }

  lemma AfterDisposal(legs: seq<Leg>, x: Txn, y: Txn, e: nat, leg: Leg)
    requires y.disposed == x.disposed + {e} && y.added == Keep(x.added, {e})
    ensures multiset(View(legs, y))[leg] == if leg.entry == e then 0 else multiset(View(legs, x))[leg]
  {
    KeepIsExact(legs, x.disposed, leg);
    KeepIsExact(legs, y.disposed, leg);
    KeepIsExact(x.added, {e}, leg);
  }

  /** A new entry is refused when its id stands, and stands afterwards with no leg of its own yet. */
  lemma ACreatedEntryStands(s: System, t: nat, e: nat)
    requires t in s.open && s.open[t].phase == Active
    ensures var x, s' := s.open[t], Step(s, CreateEntry(t, e));
      if exists u :: u in s.open && u != t && (e in s.open[u].held || e in s.open[u].shared) then s' == s
      else if Stands(s, t, e) then Raised(s, s', t)
      else
        && OnlyMoves(s, s', t) && View(s'.legs, s'.open[t]) == View(s.legs, x) && s'.open[t].phase == Active
        && s'.open[t].queue == x.queue && (forall d :: Stands(s', t, d) <==> Stands(s, t, d) || d == e)
  {
  }

  /** While one transaction has created or disposed of an entry, another's append, creation or disposal
      of it waits; while one has appended to it, another's creation or disposal does. */
  lemma AnEntryInHandIsWaitedFor(s: System, t: nat, u: nat, leg: Leg)
    requires t in s.open && u in s.open && u != t && s.open[t].phase == Active
    ensures var s' := Step(s, CreateEntry(t, leg.entry));
      s' != s && s'.open[t].phase == Active ==> Waits(s', u, leg) && Step(s', Append(u, leg)) == s'
    ensures var s' := Step(s, Dispose(t, leg.entry));
      s' != s && s'.open[t].phase == Active ==> Waits(s', u, leg) && Step(s', Append(u, leg)) == s'
    ensures var s' := Step(s, Append(t, leg)); s' != s && s'.open[t].phase == Active ==> Waits(s', u, leg)
  {
    assert s == Put(s, t, s.open[t]);
  }

  predicate Waits(s: System, u: nat, leg: Leg) {
    Step(s, CreateEntry(u, leg.entry)) == s && Step(s, Dispose(u, leg.entry)) == s
  }

  /** The privilege: an UPDATE or DELETE of a leg raises. */
  lemma AnEditRaises(s: System, t: nat)
    requires t in s.open && s.open[t].phase == Active
    ensures Raised(s, Step(s, EditOrDeleteLeg(t)), t)
  {
  }

  /** The check refuses an entry with fewer than two legs, or with legs that do not sum to zero. */
  lemma ACheckRefusesExactlyWhen(s: System, t: nat, e: nat)
    requires t in s.open && s.open[t].phase == Committing && e in s.open[t].queue
    ensures var x, s' := s.open[t], Step(s, RunCheck(t, e));
      if CountOf(View(s.legs, x), e) < 2 || SumOf(View(s.legs, x), e) != 0 then Raised(s, s', t)
      else OnlyMoves(s, s', t) && View(s'.legs, s'.open[t]) == View(s.legs, x)
           && s'.open[t].queue == x.queue - {e} && s'.open[t].phase == Committing
           && s'.open[t].created == x.created && s'.open[t].disposed == x.disposed
  {
  }

  /** A check is run for a commit alone, and for no entry but those queued. */
  lemma ACheckIsRunForACommit(s: System, t: nat, e: nat)
    requires t in s.open ==> s.open[t].phase != Committing || e !in s.open[t].queue
    ensures Step(s, RunCheck(t, e)) == s
  {
  }

  /** A transaction begins with nothing; once nothing is queued it publishes the legs it saw and the
      entries that stood for it; a rollback leaves no trace; past its statements it runs none. */
  lemma TransactionsBeginAndEnd(s: System, t: nat, e: nat, leg: Leg)
    ensures t !in s.open ==> var b := Step(s, Begin(t));
      b.entries == s.entries && b.legs == s.legs && t in b.open && b.open - {t} == s.open
      && b.open[t].phase == Active && View(b.legs, b.open[t]) == s.legs && b.open[t].queue == {}
      && (forall d :: Stands(b, t, d) <==> d in s.entries)
    ensures var p := Step(s, Publish(t));
      if t in s.open && s.open[t].phase == Committing && s.open[t].queue == {}
      then p.legs == View(s.legs, s.open[t]) && p.open == s.open - {t}
           && forall d :: d in p.entries <==> Stands(s, t, d)
      else p == s
    ensures Step(s, Rollback(t)) == System(s.entries, s.legs, s.open - {t})
    ensures t in s.open && s.open[t].phase == Active ==>
      Step(s, StartCommit(t)) == s.(open := s.open[t := s.open[t].(phase := Committing)])
    ensures (t in s.open ==> s.open[t].phase != Active) ==>
      && Step(s, Append(t, leg)) == s && Step(s, CreateEntry(t, e)) == s && Step(s, Dispose(t, e)) == s
      && Step(s, EditOrDeleteLeg(t)) == s && Step(s, StartCommit(t)) == s
  {
    if t !in s.open {
      NothingDisposed(s.legs);
      assert (s.open[t := Step(s, Begin(t)).open[t]]) - {t} == s.open;
    }
  }

  lemma {:induction false} NothingDisposed(legs: seq<Leg>)
    ensures Keep(legs, {}) == legs
  {
    if legs == [] {
    } else {
      assert legs == legs[..|legs| - 1] + [legs[|legs| - 1]];
      NothingDisposed(legs[..|legs| - 1]);
    }
  }

  /** A whole commit taken at once: every queued check, then the publish. */
  function CommitNow(s: System, t: nat): System
    requires t in s.open
  {
    var x := s.open[t];
    if forall e :: e in x.queue ==> Balanced(View(s.legs, x), e) then
      System((s.entries - x.disposed) + x.created, View(s.legs, x), s.open - {t})
    else Put(s, t, Fail(x))
  }

  /** It publishes what the transaction saw when every entry queued has two legs or more summing to
      zero, and otherwise fails the transaction and publishes nothing. */
  lemma CommitNowIsAllOrNothing(s: System, t: nat)
    requires t in s.open
    ensures var x, after := s.open[t], CommitNow(s, t);
      if forall e :: e in x.queue ==> CountOf(View(s.legs, x), e) >= 2 && SumOf(View(s.legs, x), e) == 0
      then after.legs == View(s.legs, x) && after.open == s.open - {t}
           && forall d :: d in after.entries <==> Stands(s, t, d)
      else Raised(s, after, t)
  {
  }

  lemma CommitNowKeeps(s: System, t: nat)
    requires Inv(s) && Running(s, t)
    ensures Inv(CommitNow(s, t))
  {
    var x := s.open[t];
    if forall e :: e in x.queue ==> Balanced(View(s.legs, x), e) {
      var y := x.(phase := Committing, queue := {}, checked := x.queue);
      assert View(s.legs, y) == View(s.legs, x);
      PutKeeps(s, t, y);
      assert Put(s, t, y).open - {t} == s.open - {t};
      PublishKeeps(Put(s, t, y), t, CommitNow(s, t));
    } else {
      PutKeeps(s, t, Fail(x));
    }
  }

  // ---------------------------------------------------------------- the arms the trigger lacks

  /** An entry left with no leg at commit is refused. */
  lemma NoLegLeftIsRefused(s: System, x: Txn, e: nat)
    requires e in x.disposed && CountOf(x.added, e) == 0
    ensures RunOne(s, x, e).phase.Failed?
  {
    ViewCounts(s.legs, x, e);
  }

  lemma AppendQueues(s: System, t: nat, leg: Leg)
    requires Running(s, t) && leg.amount != 0 && Exists(s, s.open[t], leg.entry) && MayHold(s, t, leg.entry)
    ensures var s1 := Step(s, Append(t, leg));
      Running(s1, t) && MayHold(s1, t, leg.entry) && Exists(s1, s1.open[t], leg.entry)
      && leg.entry in s1.open[t].queue
  {
  }

  lemma DisposedLegsStayQueued(s: System, t: nat, e: nat)
    requires Running(s, t) && MayHold(s, t, e) && Exists(s, s.open[t], e) && e in s.open[t].queue
    ensures var s' := Step(Step(s, Dispose(t, e)), StartCommit(t));
      t in s'.open && e in s'.open[t].queue && Step(s', RunCheck(t, e)).open[t].phase.Failed?
  {
    var disposed := Step(s, Dispose(t, e));
    KeepCounts(s.open[t].added, {e}, e);
    var s' := Step(disposed, StartCommit(t));
    NoLegLeftIsRefused(s', s'.open[t], e);
  }

  /** A leg appended and its entry then disposed of in one transaction is still checked, and with
      no leg left the check refuses. */
  lemma AppendThenDisposeAborts(s: System, t: nat, leg: Leg)
    requires Inv(s) && Running(s, t) && leg.amount != 0 && Exists(s, s.open[t], leg.entry)
    requires MayHold(s, t, leg.entry)
    ensures var s' := Step(Step(Step(s, Append(t, leg)), Dispose(t, leg.entry)), StartCommit(t));
      t in s'.open && leg.entry in s'.open[t].queue && Step(s', RunCheck(t, leg.entry)).open[t].phase.Failed?
  {
    AppendQueues(s, t, leg);
    DisposedLegsStayQueued(Step(s, Append(t, leg)), t, leg.entry);
  }

  /** No check hangs on a delete, so the privilege is what protects a single leg: removing any one
      leg of a balanced ledger takes the trial balance off zero by that leg. */
  lemma OneLegDeletedBreaksTheTrialBalance(legs: seq<Leg>, i: nat)
    requires LedgerBalanced(legs) && i < |legs|
    ensures Total(legs[..i] + legs[i + 1..]) == -legs[i].amount
    ensures legs[i].amount != 0 ==> !LedgerBalanced(legs[..i] + legs[i + 1..])
  {
    TrialBalance(legs);
    assert legs == (legs[..i] + [legs[i]]) + legs[i + 1..];
    SumAppends(legs[..i] + [legs[i]], legs[i + 1..], 0);
    SumAppends(legs[..i], [legs[i]], 0);
    SumAppends(legs[..i], legs[i + 1..], 0);
    assert [legs[i]][..0] == [];
    assert Total([legs[i]]) == legs[i].amount;
    if LedgerBalanced(legs[..i] + legs[i + 1..]) {
      TrialBalance(legs[..i] + legs[i + 1..]);
    }
  }

  // ---------------------------------------------------------------- the trigger body

  /** assert_journal_entry_balanced: recompute the entry's total and count from all its legs. */
  method EntryIsBalanced(legs: seq<Leg>, e: nat) returns (ok: bool)
    ensures ok <==> Balanced(legs, e)
  {
    var vSum, vCount := 0, 0;
    for i := 0 to |legs|
      invariant vSum == SumOf(legs[..i], e) && vCount == CountOf(legs[..i], e)
    {
      assert legs[..i + 1][..i] == legs[..i];
      if legs[i].entry == e {
        vSum := vSum + legs[i].amount;
        vCount := vCount + 1;
      }
    }
    assert legs[..|legs|] == legs;
    if vCount < 2 {
      return false;
    }
    return vSum == 0;
  }

  /** The ledger and its open transactions. */
  class Ledger {
    var entries: set<nat>
    var legs: seq<Leg>
    var open: map<nat, Txn>

    constructor ()
      ensures State() == System({}, [], map[]) && Inv(State())
    {
      entries, legs, open := {}, [], map[];
    }

    function State(): System
      reads this
    {
      System(entries, legs, open)
    }

    /** INSERT INTO budget.account_postings: the foreign key, the nonzero check, the queued event. */
    method AppendALeg(t: nat, leg: Leg)
      requires Inv(State()) && Running(State(), t)
      modifies this
      ensures State() == Step(old(State()), Append(t, leg)) && Inv(State())
    {
      StepKeeps(State(), Append(t, leg));
      var x := open[t];
      if !MayShare(State(), t, leg.entry) {
        return;
      }
      if leg.amount == 0 || !(leg.entry in x.created || (leg.entry in entries && leg.entry !in x.disposed)) {
        x := Fail(x);
      } else {
        x := x.(added := x.added + [leg], shared := x.shared + {leg.entry}, queue := x.queue + {leg.entry});
      }
      open := open[t := x];
    }

    /** COMMIT: each queued entry is checked in turn; the first unbalanced one undoes the transaction. */
    method Commit(t: nat) returns (ok: bool)
      requires Inv(State()) && Running(State(), t)
      modifies this
      ensures State() == CommitNow(old(State()), t) && Inv(State())
      ensures ok <==> t !in open
    {
      CommitNowKeeps(State(), t);
      var x := open[t];
      var todo := x.queue;
      while todo != {}
        invariant todo <= x.queue && State() == old(State())
        invariant forall e :: e in x.queue - todo ==> Balanced(View(legs, x), e)
        decreases todo
      {
        var e :| e in todo;
        var balanced := EntryIsBalanced(View(legs, x), e);
        if !balanced {
          open := open[t := Fail(x)];
          return false;
        }
        todo := todo - {e};
      }
      entries, legs, open := (entries - x.disposed) + x.created, View(legs, x), open - {t};
      return true;
    }
  }
}
