/** The audit-trigger census and the deploy's check (app/audit_infrastructure.py).

    The check counts by name prefix and refuses below the number of audited tables; the list
    it prints is read table by table, from the same snapshot of pg_trigger. */
module AuditCensus {
  import opened Wrappers

  datatype Table = Table(schema: string, name: string)

  /** A pg_trigger row: its table, its name, whether PostgreSQL made it for itself. */
  datatype Trigger = Trigger(on: Table, name: string, internal: bool)

  type Catalog = set<Trigger>

  const PREFIX := "audit_"

  function TriggerName(t: Table): string {
    PREFIX + t.name
  }

  predicate Counted(t: Trigger) {
    PREFIX <= t.name && !t.internal
  }

  /** AUDIT_TRIGGER_COUNT_SQL. */
  function Found(catalog: Catalog): nat {
    |set t | t in catalog && Counted(t)|
  }

  predicate Carries(catalog: Catalog, t: Table) {
    Trigger(t, TriggerName(t), false) in catalog
  }

  /** The census's ARRAY(...): the audited entries whose own trigger is absent, in list order. */
  function Missing(audited: seq<Table>, catalog: Catalog): seq<Table> {
    if audited == [] then []
    else
      var last := audited[|audited| - 1];
      Missing(audited[..|audited| - 1], catalog) + if Carries(catalog, last) then [] else [last]
  }

  predicate Distinct(audited: seq<Table>) {
    forall i, j :: 0 <= i < j < |audited| ==> audited[i] != audited[j]
  }

  function Own(audited: seq<Table>, catalog: Catalog): Catalog {
    set t | t in audited && Carries(catalog, t) :: Trigger(t, TriggerName(t), false)
  }

  /** The counted triggers no audited entry names. */
  function Surplus(audited: seq<Table>, catalog: Catalog): Catalog {
    (set t | t in catalog && Counted(t)) - Own(audited, catalog)
  }

  lemma {:induction false} MissingAreThoseNotCarried(audited: seq<Table>, catalog: Catalog, t: Table)
    ensures t in Missing(audited, catalog) <==> t in audited && !Carries(catalog, t)
  {
    if audited == [] {
    } else {
      assert audited == audited[..|audited| - 1] + [audited[|audited| - 1]];
      MissingAreThoseNotCarried(audited[..|audited| - 1], catalog, t);
    }
  }

  lemma {:induction false} EveryEntryIsCarriedOrMissing(audited: seq<Table>, catalog: Catalog)
    requires Distinct(audited)
    ensures |Own(audited, catalog)| + |Missing(audited, catalog)| == |audited|
  {
    if audited == [] {
      assert Own(audited, catalog) == {};
    } else {
      var init, last := audited[..|audited| - 1], audited[|audited| - 1];
      assert audited == init + [last];
      EveryEntryIsCarriedOrMissing(init, catalog);
      if Carries(catalog, last) {
        assert Own(audited, catalog) == Own(init, catalog) + {Trigger(last, TriggerName(last), false)};
      } else {
        assert Own(audited, catalog) == Own(init, catalog);
      }
    }
  }

  lemma OwnTriggersAreCounted(audited: seq<Table>, catalog: Catalog)
    ensures Own(audited, catalog) <= set t | t in catalog && Counted(t)
  {
    forall t | t in audited && Carries(catalog, t)
      ensures PREFIX <= TriggerName(t)
    {
    }
  }

  lemma SubsetSize(a: Catalog, b: Catalog)
    requires a <= b
    ensures |b - a| + |a| == |b|
  {
    assert b == (b - a) + a && (b - a) !! a;
  }

  /** The count is the audited tables, less those missing, plus the surplus. */
  lemma TheCountInParts(audited: seq<Table>, catalog: Catalog)
    requires Distinct(audited)
    ensures Found(catalog) + |Missing(audited, catalog)| == |audited| + |Surplus(audited, catalog)|
  {
    EveryEntryIsCarriedOrMissing(audited, catalog);
    OwnTriggersAreCounted(audited, catalog);
    SubsetSize(Own(audited, catalog), set t | t in catalog && Counted(t));
  }

  // ---------------------------------------------------------------- the check

  datatype Verdict = Passes(found: nat) | Refuses(found: nat, missing: seq<Table>)

  /** require_audit_triggers, on the two answers of one census. */
  function Judge(audited: seq<Table>, found: nat, missing: seq<Table>): Verdict {
    if found < |audited| then Refuses(found, missing) else Passes(found)
  }

  /** A short count names at least as many audited tables as it is short by, never none, each
      without its trigger, whatever surplus there is. */
  lemma AShortCountNamesTables(audited: seq<Table>, catalog: Catalog)
    requires Distinct(audited)
    ensures var v := Judge(audited, Found(catalog), Missing(audited, catalog));
      v.Refuses? ==> && |v.missing| >= |audited| - Found(catalog) > 0
                     && forall t :: t in v.missing <==> t in audited && !Carries(catalog, t)
  {
    TheCountInParts(audited, catalog);
    forall t ensures t in Missing(audited, catalog) <==> t in audited && !Carries(catalog, t) {
      MissingAreThoseNotCarried(audited, catalog, t);
    }
  }

  /** The check refuses exactly when the missing outnumber the surplus. */
  lemma RefusesExactlyWhenMissingOutnumberSurplus(audited: seq<Table>, catalog: Catalog)
    requires Distinct(audited)
    ensures Judge(audited, Found(catalog), Missing(audited, catalog)).Refuses?
       <==> |Missing(audited, catalog)| > |Surplus(audited, catalog)|
  {
    TheCountInParts(audited, catalog);
  }

  lemma {:induction false} NothingMissing(audited: seq<Table>, catalog: Catalog)
    requires forall t :: t in audited ==> Carries(catalog, t)
    ensures Missing(audited, catalog) == []
  {
    if audited == [] {
    } else {
      NothingMissing(audited[..|audited| - 1], catalog);
    }
  }

  /** Read as two statements, a trigger created between them could leave a short count naming nothing. */
  lemma TwoSnapshotsMayNameNothing(audited: seq<Table>)
    requires Distinct(audited) && audited != []
    ensures exists early: Catalog, late: Catalog ::
      early <= late && Judge(audited, Found(early), Missing(audited, late)) == Refuses(Found(early), [])
  {
    var early: Catalog := {};
    var late := set t | t in audited :: Trigger(t, TriggerName(t), false);
    NothingMissing(audited, late);
    assert (set t | t in early && Counted(t)) == {};
    assert early <= late && Judge(audited, Found(early), Missing(audited, late)) == Refuses(Found(early), []);
  }

  /** A trigger more counts exactly when PostgreSQL did not make it and its name begins audit_. */
  lemma ATriggerCountsExactlyWhen(catalog: Catalog, t: Trigger)
    requires t !in catalog
    ensures Found({}) == 0
    ensures Found(catalog + {t}) ==
      Found(catalog) + if !t.internal && |t.name| >= 6 && t.name[..6] == "audit_" then 1 else 0
  {
    var counted := set x | x in catalog && Counted(x);
    assert PREFIX <= t.name <==> |t.name| >= 6 && t.name[..6] == "audit_";
    assert (set x | x in catalog + {t} && Counted(x)) == if Counted(t) then counted + {t} else counted;
    var none: Catalog := {};
    assert (set x | x in none && Counted(x)) == {};
  }

  /** The missing are named in the list's own order, each as often as it is listed. */
  lemma {:induction false} TheMissingAreInListOrder(one: seq<Table>, two: seq<Table>, catalog: Catalog)
    ensures Missing(one + two, catalog) == Missing(one, catalog) + Missing(two, catalog)
    decreases |two|
  {
    if two == [] {
      assert one + two == one;
    } else {
      var init, last := two[..|two| - 1], two[|two| - 1];
      assert (one + two)[..|one + two| - 1] == one + init;
      TheMissingAreInListOrder(one, init, catalog);
    }
  }

  /** A table listed alone is missing exactly when no user's trigger named audit_ and its name is on it. */
  lemma ATableIsMissingExactlyWhen(t: Table, catalog: Catalog)
    ensures Missing([t], catalog) == if Trigger(t, "audit_" + t.name, false) in catalog then [] else [t]
  {
    assert [t][..0] == [];
  }

  /** The statement printed for a table attaches its own trigger and nothing else, or fails when the
      table has one of that name. */
  lemma ACreateAttaches(catalog: Catalog, t: Table)
    ensures Create(catalog, t) ==
      if Trigger(t, "audit_" + t.name, false) in catalog || Trigger(t, "audit_" + t.name, true) in catalog then None
      else Some(catalog + {Trigger(t, "audit_" + t.name, false)})
  {
  }

  // ---------------------------------------------------------------- running what it prints

  /** CREATE TRIGGER: refused when the table has a trigger of that name already. */
  function Create(catalog: Catalog, t: Table): Option<Catalog> {
    if exists internal :: Trigger(t, TriggerName(t), internal) in catalog then None
    else Some(catalog + {Trigger(t, TriggerName(t), false)})
  }

  function CreateAll(catalog: Catalog, tables: seq<Table>): Option<Catalog>
    decreases |tables|
  {
    if tables == [] then Some(catalog)
    else
      var next := Create(catalog, tables[0]);
      if next.None? then None else CreateAll(next.value, tables[1..])
  }

  /** The statements run one after another, and the first that fails ends them. */
  lemma CreatesRunInTurn(catalog: Catalog, t: Table, rest: seq<Table>)
    ensures CreateAll(catalog, []) == Some(catalog)
    ensures CreateAll(catalog, [t] + rest)
         == if Create(catalog, t).None? then None else CreateAll(Create(catalog, t).value, rest)
  {
    assert ([t] + rest)[1..] == rest;
  }

  /** PostgreSQL's own triggers are never named for the audit. */
  ghost predicate InternalNamesApart(catalog: Catalog) {
    forall t :: t in catalog && t.internal ==> !(PREFIX <= t.name)
  }

  lemma {:induction false} CreatesRun(catalog: Catalog, tables: seq<Table>)
    requires Distinct(tables) && InternalNamesApart(catalog)
    requires forall t :: t in tables ==> !Carries(catalog, t)
    ensures CreateAll(catalog, tables)
         == Some(catalog + set t | t in tables :: Trigger(t, TriggerName(t), false))
    decreases |tables|
  {
    if tables == [] {
      assert catalog + (set t | t in tables :: Trigger(t, TriggerName(t), false)) == catalog;
    } else {
      var first := tables[0];
      assert PREFIX <= TriggerName(first);
      var next := catalog + {Trigger(first, TriggerName(first), false)};
      assert tables == [first] + tables[1..];
      assert Distinct(tables[1..]);
      forall t | t in tables[1..] ensures !Carries(next, t) {
        assert t in tables && t != first;
      }
      CreatesRun(next, tables[1..]);
      assert catalog + (set t | t in tables :: Trigger(t, TriggerName(t), false))
          == next + (set t | t in tables[1..] :: Trigger(t, TriggerName(t), false));
    }
  }

  lemma {:induction false} MissingIsDistinct(audited: seq<Table>, catalog: Catalog)
    requires Distinct(audited)
    ensures Distinct(Missing(audited, catalog))
  {
    if audited == [] {
    } else {
      var init, last := audited[..|audited| - 1], audited[|audited| - 1];
      MissingIsDistinct(init, catalog);
      MissingAreThoseNotCarried(init, catalog, last);
    }
  }

  /** Running the printed statements leaves nothing missing, the count full, and the check passing. */
  lemma RunningThePrintedStatementsRepairs(audited: seq<Table>, catalog: Catalog)
    requires Distinct(audited) && InternalNamesApart(catalog)
    ensures var after := CreateAll(catalog, Missing(audited, catalog));
      && after.Some? && Missing(audited, after.value) == [] && Found(after.value) >= |audited|
      && Judge(audited, Found(after.value), Missing(audited, after.value)).Passes?
  {
    var missing := Missing(audited, catalog);
    forall t ensures t in missing <==> t in audited && !Carries(catalog, t) {
      MissingAreThoseNotCarried(audited, catalog, t);
    }
    MissingIsDistinct(audited, catalog);
    CreatesRun(catalog, missing);
    var after := CreateAll(catalog, missing).value;
    NothingMissing(audited, after);
    TheCountInParts(audited, after);
  }
}
