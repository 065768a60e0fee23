/** The last-sighting rule (app/sighting_infrastructure.py).

    A DELETE removes sightings row by row, each queuing the AFTER DELETE trigger of its row;
    removals and triggers interleave, a trigger only ever after its own row's removal.  The
    trigger deletes the line when no sighting of it remains.  Transactions run one at a time. */
module Sightings {
  import opened Wrappers

  /** budget.statement_line_sightings: the line sighted, and the import that sighted it. */
  datatype Sighting = Sighting(line: nat, source: nat)

  datatype Db = Db(lines: set<nat>, sightings: map<nat, Sighting>)

  /** The rows one DELETE statement takes: sightings, and lines deleted for a reason of their own. */
  datatype Plan = Plan(victims: set<nat>, doomed: set<nat>)

  datatype Micro =
    | Remove(sighting: nat)
    | Fire(sighting: nat)
    | DropLine(line: nat)

  /** A DELETE under way. */
  datatype Work = Work(db: Db, removed: set<nat>, fired: set<nat>, dropped: set<nat>)

  predicate Sighted(sightings: map<nat, Sighting>, line: nat) {
    exists s :: s in sightings && sightings[s].line == line
  }

  predicate Keyed(db: Db) {
    forall s :: s in db.sightings ==> db.sightings[s].line in db.lines
  }

  /** A doomed line's sightings go with it, by the key's cascade. */
  predicate Legal(db: Db, p: Plan) {
    p.victims <= db.sightings.Keys
    && forall s :: s in db.sightings && db.sightings[s].line in p.doomed ==> s in p.victims
  }

  // ---------------------------------------------------------------- one statement, step by step

  /** budget.remove_line_left_unsighted, for the OLD row of one sighting. */
  function Trigger(db: Db, line: nat): Db {
    if Sighted(db.sightings, line) then db else db.(lines := db.lines - {line})
  }

  /** One micro-step of a DELETE; one that is not due changes nothing. */
  function Step(start: Db, p: Plan, w: Work, m: Micro): Work
    requires Legal(start, p)
  {
    match m
    case Remove(s) =>
      if s !in p.victims then w
      else Work(w.db.(sightings := w.db.sightings - {s}), w.removed + {s}, w.fired, w.dropped)
    case Fire(s) =>
      if s !in p.victims || s !in w.removed || s in w.fired then w
      else Work(Trigger(w.db, start.sightings[s].line), w.removed, w.fired + {s}, w.dropped)
    case DropLine(l) =>
      if l !in p.doomed then w
      else Work(w.db.(lines := w.db.lines - {l}), w.removed, w.fired, w.dropped + {l})
  }

  function Steps(start: Db, p: Plan, w: Work, schedule: seq<Micro>): Work
    requires Legal(start, p)
    decreases |schedule|
  {
    if schedule == [] then w else Steps(start, p, Step(start, p, w, schedule[0]), schedule[1..])
  }

  function Begin(start: Db): Work {
    Work(start, {}, {}, {})
  }

  predicate Finished(p: Plan, w: Work) {
    w.removed == p.victims && w.fired == p.victims && w.dropped == p.doomed
  }

  // ---------------------------------------------------------------- what any order leaves

  /** A line one of whose sightings goes while none stays. */
  predicate Stranded(start: Db, victims: set<nat>, line: nat)
    requires victims <= start.sightings.Keys
  {
    && (exists s :: s in victims && start.sightings[s].line == line)
    && !Sighted(start.sightings - victims, line)
  }

  function Outcome(start: Db, p: Plan): Db
    requires Legal(start, p)
  {
    var kept := set l | l in start.lines && l !in p.doomed && !Stranded(start, p.victims, l);
    Db(kept, start.sightings - p.victims)
  }

  /** A trigger is still due on every line that has lost its last sighting and stands. */
  ghost predicate Owed(start: Db, w: Work)
    requires w.removed <= start.sightings.Keys
  {
    forall l, s :: l in w.db.lines && s in w.removed && start.sightings[s].line == l && !Sighted(w.db.sightings, l) ==>
      exists r :: r in w.removed - w.fired && start.sightings[r].line == l
  }

  ghost predicate OnCourse(start: Db, p: Plan, w: Work)
    requires Legal(start, p)
  {
    && w.fired <= w.removed <= p.victims && w.dropped <= p.doomed
    && w.db.sightings == start.sightings - w.removed
    && w.db.lines <= start.lines - w.dropped
    && (forall l :: l in start.lines && l !in w.db.lines ==> l in w.dropped || Stranded(start, p.victims, l))
    && Owed(start, w)
  }

  lemma FireStaysOnCourse(start: Db, p: Plan, w: Work, s: nat)
    requires Legal(start, p) && OnCourse(start, p, w)
    requires s in p.victims && s in w.removed && s !in w.fired
    ensures OnCourse(start, p, Step(start, p, w, Fire(s)))
  {
    var next := Step(start, p, w, Fire(s));
    var line := start.sightings[s].line;
    if !Sighted(w.db.sightings, line) {
      assert forall r :: r in start.sightings - p.victims ==> r in w.db.sightings;
      assert Stranded(start, p.victims, line);
    }
    forall l, r |
        l in next.db.lines && r in next.removed && start.sightings[r].line == l && !Sighted(next.db.sightings, l)
      ensures exists d :: d in next.removed - next.fired && start.sightings[d].line == l
    {
      var d :| d in w.removed - w.fired && start.sightings[d].line == l;
      assert d in next.removed - next.fired;
    }
  }

  lemma RemoveStaysOnCourse(start: Db, p: Plan, w: Work, s: nat)
    requires Legal(start, p) && OnCourse(start, p, w) && s in p.victims && s !in w.removed
    ensures OnCourse(start, p, Step(start, p, w, Remove(s)))
  {
    var next := Step(start, p, w, Remove(s));
    forall l, r |
        l in next.db.lines && r in next.removed && start.sightings[r].line == l && !Sighted(next.db.sightings, l)
      ensures exists d :: d in next.removed - next.fired && start.sightings[d].line == l
    {
      if start.sightings[s].line == l {
        assert s in next.removed - next.fired;
      } else {
        assert forall k :: k in w.db.sightings && k != s ==> k in next.db.sightings;
        assert !Sighted(w.db.sightings, l);
        var d :| d in w.removed - w.fired && start.sightings[d].line == l;
        assert d in next.removed - next.fired;
      }
    }
  }

  lemma StepStaysOnCourse(start: Db, p: Plan, w: Work, m: Micro)
    requires Legal(start, p) && OnCourse(start, p, w)
    ensures OnCourse(start, p, Step(start, p, w, m))
  {
    match m
    case Remove(s) =>
      if s in w.removed {
        assert w.db.sightings - {s} == w.db.sightings;
        assert Step(start, p, w, m) == w;
      } else if s in p.victims {
        RemoveStaysOnCourse(start, p, w, s);
      }
    case Fire(s) =>
      if s in p.victims && s in w.removed && s !in w.fired { FireStaysOnCourse(start, p, w, s); }
    case DropLine(l) =>
  }

  lemma {:induction false} StepsStayOnCourse(start: Db, p: Plan, w: Work, schedule: seq<Micro>)
    requires Legal(start, p) && OnCourse(start, p, w)
    ensures OnCourse(start, p, Steps(start, p, w, schedule))
    decreases |schedule|
  {
    if schedule == [] {
    } else {
      StepStaysOnCourse(start, p, w, schedule[0]);
      StepsStayOnCourse(start, p, Step(start, p, w, schedule[0]), schedule[1..]);
    }
  }

  lemma OnCourseFinished(start: Db, p: Plan, w: Work)
    requires Legal(start, p) && OnCourse(start, p, w) && Finished(p, w)
    ensures w.db == Outcome(start, p)
  {
    assert w.removed - w.fired == {};
  }

  lemma RemovedAtOnce(start: Db, p: Plan)
    requires Legal(start, p) && p.doomed == {}
    ensures OnCourse(start, p, Work(start.(sightings := start.sightings - p.victims), p.victims, {}, {}))
  {
    var w := Work(start.(sightings := start.sightings - p.victims), p.victims, {}, {});
    forall l, s | l in w.db.lines && s in w.removed && start.sightings[s].line == l && !Sighted(w.db.sightings, l)
      ensures exists r :: r in w.removed - w.fired && start.sightings[r].line == l
    {
      assert s in w.removed - w.fired;
    }
  }

  /** Whatever the order of removals and triggers, a finished DELETE removes exactly the lines it
      was asked to and those it leaves with no sighting. */
  lemma AnyOrderGivesTheOutcome(start: Db, p: Plan, schedule: seq<Micro>)
    requires Legal(start, p) && Finished(p, Steps(start, p, Begin(start), schedule))
    ensures Steps(start, p, Begin(start), schedule).db == Outcome(start, p)
  {
    assert start.sightings - {} == start.sightings;
    StepsStayOnCourse(start, p, Begin(start), schedule);
    OnCourseFinished(start, p, Steps(start, p, Begin(start), schedule));
  }

  predicate Going(p: Plan, w: Work) {
    w.removed <= p.victims && w.fired <= w.removed && w.dropped <= p.doomed
  }

  function Left(p: Plan, w: Work): nat {
    |p.victims - w.removed| + |p.victims - w.fired| + |p.doomed - w.dropped|
  }

  predicate Due(p: Plan, w: Work, m: Micro) {
    match m
    case Remove(s) => s in p.victims && s !in w.removed
    case Fire(s) => s in w.removed && s !in w.fired
    case DropLine(l) => l in p.doomed && l !in w.dropped
  }

  lemma OneFewer(all: set<nat>, done: set<nat>, x: nat)
    requires x in all - done
    ensures |all - (done + {x})| + 1 == |all - done|
  {
    assert all - (done + {x}) == (all - done) - {x};
  }

  lemma ADueStepAdvances(start: Db, p: Plan, w: Work, m: Micro)
    requires Legal(start, p) && Going(p, w) && Due(p, w, m)
    ensures Going(p, Step(start, p, w, m)) && Left(p, Step(start, p, w, m)) < Left(p, w)
  {
    match m
    case Remove(s) => OneFewer(p.victims, w.removed, s);
    case Fire(s) => OneFewer(p.victims, w.fired, s);
    case DropLine(l) => OneFewer(p.doomed, w.dropped, l);
  }

  lemma UnfinishedHasAStepDue(p: Plan, w: Work)
    requires Going(p, w) && !Finished(p, w)
    ensures exists m :: Due(p, w, m)
  {
    if s :| s in p.victims && s !in w.removed {
      assert Due(p, w, Remove(s));
    } else if s :| s in w.removed && s !in w.fired {
      assert Due(p, w, Fire(s));
    } else {
      var l :| l in p.doomed && l !in w.dropped;
      assert Due(p, w, DropLine(l));
    }
  }

  /** And every DELETE has an order that finishes, from wherever one has got to. */
  lemma {:induction false} SomeOrderFinishes(start: Db, p: Plan, w: Work)
    requires Legal(start, p) && Going(p, w)
    ensures exists schedule :: Finished(p, Steps(start, p, w, schedule))
    decreases Left(p, w)
  {
    if Finished(p, w) {
      assert Finished(p, Steps(start, p, w, []));
    } else {
      UnfinishedHasAStepDue(p, w);
      var m :| Due(p, w, m);
      ADueStepAdvances(start, p, w, m);
      SomeOrderFinishes(start, p, Step(start, p, w, m));
      var rest :| Finished(p, Steps(start, p, Step(start, p, w, m), rest));
      assert ([m] + rest)[0] == m && ([m] + rest)[1..] == rest;
      assert Finished(p, Steps(start, p, w, [m] + rest));
    }
  }

  /** So two orders of the same DELETE agree. */
  lemma OrderDoesNotMatter(start: Db, p: Plan, one: seq<Micro>, other: seq<Micro>)
    requires Legal(start, p)
    requires Finished(p, Steps(start, p, Begin(start), one)) && Finished(p, Steps(start, p, Begin(start), other))
    ensures Steps(start, p, Begin(start), one).db == Steps(start, p, Begin(start), other).db
  {
    AnyOrderGivesTheOutcome(start, p, one);
    AnyOrderGivesTheOutcome(start, p, other);
  }

  // ---------------------------------------------------------------- every run

  datatype Statement =
    | InsertLine(line: nat)
    | InsertSighting(id: nat, sighting: Sighting)
    | DeleteImports(sources: set<nat>)
    | DeleteSightings(ids: set<nat>)
    | DeleteLines(lines: set<nat>)
    | Repoint(id: nat, line: nat)
    | Truncate

  function PlanOf(db: Db, s: Statement): (p: Plan)
    requires s.DeleteImports? || s.DeleteSightings? || s.DeleteLines?
    ensures Legal(db, p)
  {
    match s
    case DeleteImports(sources) => Plan((set i | i in db.sightings && db.sightings[i].source in sources), {})
    case DeleteSightings(ids) => Plan(ids * db.sightings.Keys, {})
    case DeleteLines(lines) => Plan((set i | i in db.sightings && db.sightings[i].line in lines), lines)
  }

  /** One statement; a refused one changes nothing.  The trigger hangs on DELETE alone. */
  function Execute(db: Db, s: Statement): Db {
    match s
    case InsertLine(l) => db.(lines := db.lines + {l})
    case InsertSighting(id, row) =>
      if id in db.sightings || row.line !in db.lines then db else db.(sightings := db.sightings[id := row])
    case Repoint(id, l) =>
      if id !in db.sightings || l !in db.lines then db
      else db.(sightings := db.sightings[id := db.sightings[id].(line := l)])
    case Truncate => db.(sightings := map[])
    case _ => Outcome(db, PlanOf(db, s))
  }

  /** Deleting imports takes exactly their sightings, and exactly the lines that had one of those and
      have no other; deleting sightings, exactly those and the lines they leave with none; deleting
      lines, exactly those and what sighted them. */
  lemma ADeleteTakesExactly(db: Db, sources: set<nat>, ids: set<nat>, lines: set<nat>)
    ensures var after := Execute(db, DeleteImports(sources));
      && (forall i :: i in after.sightings <==> i in db.sightings && db.sightings[i].source !in sources)
      && (forall i :: i in after.sightings ==> after.sightings[i] == db.sightings[i])
      && (forall l :: l in after.lines <==>
            (l in db.lines
             && ((exists i :: i in db.sightings && db.sightings[i].line == l && db.sightings[i].source !in sources)
                 || !exists i :: i in db.sightings && db.sightings[i].line == l)))
    ensures var after := Execute(db, DeleteSightings(ids));
      && after.sightings == db.sightings - ids
      && (forall l :: l in after.lines <==>
            (l in db.lines
             && ((exists i :: i in db.sightings && db.sightings[i].line == l && i !in ids)
                 || !exists i :: i in db.sightings && db.sightings[i].line == l)))
    ensures var after := Execute(db, DeleteLines(lines));
      && after.lines == db.lines - lines
      && (forall i :: i in after.sightings <==> i in db.sightings && db.sightings[i].line !in lines)
      && (forall i :: i in after.sightings ==> after.sightings[i] == db.sightings[i])
  {
    ImportsTakeExactly(db, sources);
    SightingsTakeExactly(db, ids);
    LinesTakeExactly(db, lines);
  }

  lemma ImportsTakeExactly(db: Db, sources: set<nat>)
    ensures var after := Execute(db, DeleteImports(sources));
      && (forall i :: i in after.sightings <==> i in db.sightings && db.sightings[i].source !in sources)
      && (forall i :: i in after.sightings ==> after.sightings[i] == db.sightings[i])
      && (forall l :: l in after.lines <==>
            (l in db.lines
             && ((exists i :: i in db.sightings && db.sightings[i].line == l && db.sightings[i].source !in sources)
                 || !exists i :: i in db.sightings && db.sightings[i].line == l)))
  {
    var p := PlanOf(db, DeleteImports(sources));
    assert p.victims == set i | i in db.sightings && db.sightings[i].source in sources;
    forall l ensures Stranded(db, p.victims, l) <==>
      (exists i :: i in db.sightings && db.sightings[i].line == l)
      && !exists i :: i in db.sightings && db.sightings[i].line == l && db.sightings[i].source !in sources
    {
      StrandedMeans(db, p.victims, l);
    }
  }

  lemma SightingsTakeExactly(db: Db, ids: set<nat>)
    ensures var after := Execute(db, DeleteSightings(ids));
      && after.sightings == db.sightings - ids
      && (forall l :: l in after.lines <==>
            (l in db.lines
             && ((exists i :: i in db.sightings && db.sightings[i].line == l && i !in ids)
                 || !exists i :: i in db.sightings && db.sightings[i].line == l)))
  {
    var p := PlanOf(db, DeleteSightings(ids));
    assert p.victims == ids * db.sightings.Keys;
    assert db.sightings - p.victims == db.sightings - ids;
    forall l ensures Stranded(db, p.victims, l) <==>
      (exists i :: i in db.sightings && db.sightings[i].line == l)
      && !exists i :: i in db.sightings && db.sightings[i].line == l && i !in ids
    {
      StrandedMeans(db, p.victims, l);
    }
  }

  lemma LinesTakeExactly(db: Db, lines: set<nat>)
    ensures var after := Execute(db, DeleteLines(lines));
      && after.lines == db.lines - lines
      && (forall i :: i in after.sightings <==> i in db.sightings && db.sightings[i].line !in lines)
      && (forall i :: i in after.sightings ==> after.sightings[i] == db.sightings[i])
  {
    var p := PlanOf(db, DeleteLines(lines));
    assert p.victims == set i | i in db.sightings && db.sightings[i].line in lines;
    forall l | l !in lines ensures !Stranded(db, p.victims, l) {
      StrandedMeans(db, p.victims, l);
    }
  }

  lemma StrandedMeans(db: Db, victims: set<nat>, line: nat)
    requires victims <= db.sightings.Keys
    ensures Stranded(db, victims, line) <==>
      (exists i :: i in victims && db.sightings[i].line == line)
      && !exists i :: i in db.sightings && db.sightings[i].line == line && i !in victims
  {
    assert forall i :: i in db.sightings - victims <==> i in db.sightings && i !in victims;
    assert forall i :: i in db.sightings - victims ==> (db.sightings - victims)[i] == db.sightings[i];
  }

  /** The statements that delete nothing: a line or a sighting stored as given, a sighting refused
      without its line or under a taken id, a re-pointing that moves one sighting, a truncation. */
  lemma TheRestStoreAsGiven(db: Db, id: nat, line: nat, row: Sighting)
    ensures Execute(db, InsertLine(line)) == Db(db.lines + {line}, db.sightings)
    ensures Execute(db, InsertSighting(id, row)) ==
      if id in db.sightings || row.line !in db.lines then db else Db(db.lines, db.sightings[id := row])
    ensures Execute(db, Repoint(id, line)) ==
      if id !in db.sightings || line !in db.lines then db
      else Db(db.lines, db.sightings[id := Sighting(line, db.sightings[id].source)])
    ensures Execute(db, Truncate) == Db(db.lines, map[])
  {
  }

  /** The trigger deletes the line of the OLD row when no sighting stands on it, and nothing else. */
  lemma TheTriggerDeletesExactlyWhen(db: Db, line: nat)
    ensures Trigger(db, line) ==
      if exists s :: s in db.sightings && db.sightings[s].line == line then db
      else Db(db.lines - {line}, db.sightings)
  {
  }

  /** A statement no trigger sees, on the last sightings of a line. */
  predicate Harmless(db: Db, s: Statement) {
    match s
    case Repoint(id, l) =>
      (id in db.sightings && l in db.lines && l != db.sightings[id].line) ==>
        Sighted(db.sightings - {id}, db.sightings[id].line)
    case Truncate => db.sightings == map[]
    case _ => true
  }

  /** Every line that has had a sighting, and stands, has one. */
  ghost predicate Backed(db: Db, everSighted: set<nat>) {
    forall l :: l in db.lines && l in everSighted ==> Sighted(db.sightings, l)
  }

  function LinesSighted(db: Db): set<nat> {
    set s | s in db.sightings :: db.sightings[s].line
  }

  ghost predicate Inv(db: Db, everSighted: set<nat>) {
    Keyed(db) && LinesSighted(db) <= everSighted && Backed(db, everSighted)
  }

  /** The history a statement leaves: a line deleted and put back starts afresh. */
  function History(db: Db, everSighted: set<nat>, s: Statement): set<nat> {
    (everSighted * Execute(db, s).lines - (if s.InsertLine? then {s.line} - db.lines else {}))
    + LinesSighted(Execute(db, s))
  }

  /** A line keeps its history while it stands, and gains one with a sighting. */
  lemma AStandingLineIsRemembered(db: Db, everSighted: set<nat>, s: Statement, line: nat)
    ensures line in everSighted && line in db.lines && line in Execute(db, s).lines ==>
      line in History(db, everSighted, s)
    ensures line in History(db, everSighted, s) ==>
      line in everSighted || exists i :: i in Execute(db, s).sightings && Execute(db, s).sightings[i].line == line
    ensures s == InsertLine(line) && line !in db.lines && line in History(db, everSighted, s) ==>
      exists i :: i in db.sightings && db.sightings[i].line == line
    ensures forall i :: i in Execute(db, s).sightings ==>
      Execute(db, s).sightings[i].line in History(db, everSighted, s)
  {
  }

  lemma DeleteKeeps(db: Db, everSighted: set<nat>, p: Plan)
    requires Inv(db, everSighted) && Legal(db, p)
    ensures Keyed(Outcome(db, p)) && Backed(Outcome(db, p), everSighted)
  {
    var next := Outcome(db, p);
    forall s | s in next.sightings ensures next.sightings[s].line in next.lines {
      var l := db.sightings[s].line;
      assert s in db.sightings - p.victims && Sighted(db.sightings - p.victims, l);
      assert l in db.lines && l !in p.doomed && !Stranded(db, p.victims, l);
    }
    forall l | l in next.lines && l in everSighted ensures Sighted(next.sightings, l) {
      var s :| s in db.sightings && db.sightings[s].line == l;
      if s !in p.victims { assert s in next.sightings; }
    }
  }

  lemma RepointKeeps(db: Db, everSighted: set<nat>, id: nat, line: nat)
    requires Inv(db, everSighted) && id in db.sightings && line in db.lines
    ensures Keyed(Execute(db, Repoint(id, line)))
    ensures Backed(Execute(db, Repoint(id, line)), everSighted) <==> Harmless(db, Repoint(id, line))
  {
    var next := Execute(db, Repoint(id, line));
    var left := db.sightings[id].line;
    assert left in LinesSighted(db);
    assert forall s :: s in db.sightings - {id} ==> s in next.sightings && next.sightings[s] == db.sightings[s];
    forall l | l in next.lines && l in everSighted && (l != left || Harmless(db, Repoint(id, line)))
      ensures Sighted(next.sightings, l)
    {
      if l == line {
        assert next.sightings[id].line == l;
      } else if l == left {
        var s :| s in db.sightings - {id} && db.sightings[s].line == left;
        assert next.sightings[s].line == l;
      } else {
        var s :| s in db.sightings && db.sightings[s].line == l;
        assert next.sightings[s].line == l;
      }
    }
    if Backed(next, everSighted) && line != left {
      var s :| s in next.sightings && next.sightings[s].line == left;
      assert s in db.sightings - {id};
    }
  }

  /** A statement keeps every sighted line backed exactly when it is harmless: a DELETE always
      does, an UPDATE that re-points a line's last sighting never does. */
  lemma StatementKeepsExactlyWhenHarmless(db: Db, everSighted: set<nat>, s: Statement)
    requires Inv(db, everSighted)
    ensures Inv(Execute(db, s), History(db, everSighted, s)) <==> Harmless(db, s)
  {
    match s
    case InsertLine(l) => assert Execute(db, s).sightings == db.sightings;
    case InsertSighting(id, row) => InsertKeeps(db, everSighted, id, row);
    case Repoint(id, l) =>
      if id in db.sightings && l in db.lines {
        RepointKeeps(db, everSighted, id, l);
        var next := Execute(db, s);
        assert next.lines == db.lines;
        RepointedHistory(db, everSighted, id, l);
      } else {
        assert Execute(db, s) == db;
      }
    case Truncate => TruncateKeeps(db, everSighted);
    case _ => DeleteKeeps(db, everSighted, PlanOf(db, s));
  }

  lemma RepointedHistory(db: Db, everSighted: set<nat>, id: nat, line: nat)
    requires Inv(db, everSighted) && id in db.sightings && line in db.lines
    ensures var next := Execute(db, Repoint(id, line));
      Backed(next, History(db, everSighted, Repoint(id, line))) <==> Backed(next, everSighted)
  {
    var next := Execute(db, Repoint(id, line));
    assert next.sightings[id].line == line;
    forall l | l in LinesSighted(next) ensures l in everSighted || Sighted(next.sightings, l) {
      var s :| s in next.sightings && next.sightings[s].line == l;
    }
  }

  lemma InsertKeeps(db: Db, everSighted: set<nat>, id: nat, row: Sighting)
    requires Inv(db, everSighted)
    ensures Inv(Execute(db, InsertSighting(id, row)), History(db, everSighted, InsertSighting(id, row)))
  {
    var s := InsertSighting(id, row);
    var next := Execute(db, s);
    forall l | l in next.lines && l in History(db, everSighted, s) ensures Sighted(next.sightings, l) {
      if l in everSighted {
        var i :| i in db.sightings && db.sightings[i].line == l;
        assert i in next.sightings && next.sightings[i].line == l;
      } else {
        assert l in LinesSighted(next);
        var i :| i in next.sightings && next.sightings[i].line == l;
      }
    }
  }

  lemma TruncateKeeps(db: Db, everSighted: set<nat>)
    requires Inv(db, everSighted)
    ensures Inv(Execute(db, Truncate), History(db, everSighted, Truncate)) <==> Harmless(db, Truncate)
  {
    if db.sightings != map[] {
      var s :| s in db.sightings;
      var l := db.sightings[s].line;
      assert l in db.lines && l in LinesSighted(db) && l in History(db, everSighted, Truncate);
      assert !Sighted(map[], l);
    }
  }

  function Run(db: Db, statements: seq<Statement>): Db
    decreases |statements|
  {
    if statements == [] then db else Run(Execute(db, statements[0]), statements[1..])
  }

  /** A run is its statements one after another. */
  lemma {:induction false} ARunIsItsStatementsInTurn(db: Db, statements: seq<Statement>, last: Statement)
    ensures Run(db, []) == db
    ensures Run(db, statements + [last]) == Execute(Run(db, statements), last)
    decreases |statements|
  {
    if statements == [] {
      assert ([last] + [])[1..] == [];
    } else {
      assert (statements + [last])[1..] == statements[1..] + [last];
      ARunIsItsStatementsInTurn(Execute(db, statements[0]), statements[1..], last);
    }
  }

  function HistoryOver(db: Db, everSighted: set<nat>, statements: seq<Statement>): set<nat>
    decreases |statements|
  {
    if statements == [] then everSighted
    else HistoryOver(Execute(db, statements[0]), History(db, everSighted, statements[0]), statements[1..])
  }

  predicate AllHarmless(db: Db, statements: seq<Statement>)
    decreases |statements|
  {
    statements != [] ==>
      Harmless(db, statements[0]) && AllHarmless(Execute(db, statements[0]), statements[1..])
  }

  /** Over every run, a line that has had a sighting and still stands has one. */
  lemma {:induction false} EveryStandingLineIsBacked(db: Db, everSighted: set<nat>, statements: seq<Statement>)
    requires Inv(db, everSighted) && AllHarmless(db, statements)
    ensures Inv(Run(db, statements), HistoryOver(db, everSighted, statements))
    decreases |statements|
  {
    if statements == [] {
    } else {
      StatementKeepsExactlyWhenHarmless(db, everSighted, statements[0]);
      EveryStandingLineIsBacked(Execute(db, statements[0]), History(db, everSighted, statements[0]), statements[1..]);
    }
  }

  // ---------------------------------------------------------------- the trigger body

  class Session {
    var lines: set<nat>
    var sightings: map<nat, Sighting>

    constructor (db: Db)
      ensures lines == db.lines && sightings == db.sightings
    {
      lines, sightings := db.lines, db.sightings;
    }

    ghost function State(): Db
      reads this
    {
      Db(lines, sightings)
    }

    /** The trigger function, for the OLD row of one deleted sighting. */
    method RemoveLineLeftUnsighted(gone: Sighting)
      modifies this`lines
      ensures State() == Trigger(old(State()), gone.line)
    {
      var unread := sightings.Keys;
      while unread != {}
        invariant unread <= sightings.Keys && lines == old(lines)
        invariant forall s :: s in sightings && s !in unread ==> sightings[s].line != gone.line
        decreases unread
      {
        var s :| s in unread;
        if sightings[s].line == gone.line { return; }
        unread := unread - {s};
      }
      lines := lines - {gone.line};
    }

    /** DELETE FROM budget.statement_imports: the cascade removes every sighting, then each trigger fires. */
    method DeleteTheImports(sources: set<nat>)
      modifies this
      ensures State() == Execute(old(State()), DeleteImports(sources))
    {
      ghost var start := State();
      ghost var p := PlanOf(start, DeleteImports(sources));
      var gone := map s | s in sightings && sightings[s].source in sources :: sightings[s];
      sightings := sightings - gone.Keys;
      assert gone.Keys == p.victims;
      ghost var w := Work(State(), p.victims, {}, {});
      RemovedAtOnce(start, p);
      var unfired := gone.Keys;
      while unfired != {}
        invariant unfired <= gone.Keys && sightings == start.sightings - p.victims
        invariant w == Work(State(), p.victims, p.victims - unfired, {}) && OnCourse(start, p, w)
        decreases unfired
      {
        var s :| s in unfired;
        RemoveLineLeftUnsighted(gone[s]);
        unfired := unfired - {s};
        StepStaysOnCourse(start, p, w, Fire(s));
        w := Step(start, p, w, Fire(s));
      }
      OnCourseFinished(start, p, w);
    }
  }
}
