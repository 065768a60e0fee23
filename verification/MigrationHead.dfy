/** The head of the migration chain (scripts/build_test_db_image.py, migration_head).

    Each file declares a revision id, or none, and the ids its down_revision lines name. */
module MigrationHead {
  import opened Wrappers

  datatype File = File(revision: Option<string>, downRevisions: seq<string>)

  datatype Result = Head(id: string) | NotWellDefined(heads: set<string>)

  function Revisions(files: seq<File>): set<string> {
    set f | f in files && f.revision.Some? :: f.revision.value
  }

  function Parents(files: seq<File>): set<string> {
    set f, p | f in files && p in f.downRevisions :: p
  }

  /** Scanning the versions directory, adding to two sets. */
  method FindHead(files: seq<File>) returns (r: Result)
    ensures r.Head? <==> |Revisions(files) - Parents(files)| == 1
    ensures r.Head? ==> Revisions(files) - Parents(files) == {r.id}
    ensures r.NotWellDefined? ==> r.heads == Revisions(files) - Parents(files)
  {
    var revisions: set<string>, parents: set<string> := {}, {};
    for i := 0 to |files|
      invariant revisions == Revisions(files[..i])
      invariant parents == Parents(files[..i])
    {
      var file := files[i];
      assert files[..i + 1] == files[..i] + [file];
      if file.revision.Some? {
        revisions := revisions + {file.revision.value};
      }
      parents := parents + set p | p in file.downRevisions;
    }
    assert files[..|files|] == files;
    var heads := revisions - parents;
    if |heads| != 1 {
      return NotWellDefined(heads);
    }
    OnlyMember(heads);
    var head :| head in heads;
    return Head(head);
  }

  lemma OnlyMember(s: set<string>)
    requires |s| == 1
    ensures forall x :: x in s ==> s == {x}
  {
    forall x | x in s ensures s == {x} {
      assert s == {x} + (s - {x}) && |s - {x}| == 0;
    }
  }

  // ---------------------------------------------------------------- the graph

  /** A revision that names another as its down_revision. */
  ghost predicate Child(files: seq<File>, parent: string, child: string) {
    exists f :: f in files && f.revision == Some(child) && parent in f.downRevisions
  }

  ghost predicate Path(files: seq<File>, path: seq<string>) {
    && path != []
    && (forall i :: 0 <= i < |path| ==> path[i] in Revisions(files))
    && (forall i :: 0 < i < |path| ==> Child(files, path[i - 1], path[i]))
  }

  ghost predicate IsAncestor(files: seq<File>, r: string, head: string) {
    exists path :: Path(files, path) && path[0] == r && path[|path| - 1] == head
  }

  ghost predicate Acyclic(files: seq<File>) {
    forall path :: Path(files, path) && |path| > 1 ==> path[0] != path[|path| - 1]
  }

  /** No file names a parent without declaring itself. */
  ghost predicate EveryFileDeclaresItself(files: seq<File>) {
    forall f :: f in files && f.downRevisions != [] ==> f.revision.Some?
  }

  lemma PathsDoNotRepeat(files: seq<File>, path: seq<string>)
    requires Acyclic(files) && Path(files, path)
    ensures forall i, j :: 0 <= i < j < |path| ==> path[i] != path[j]
  {
    forall i, j | 0 <= i < j < |path| ensures path[i] != path[j] {
      var between := path[i..j + 1];
      assert Path(files, between) by {
        forall k | 0 < k < |between| ensures Child(files, between[k - 1], between[k]) {
          assert between[k - 1] == path[i + k - 1] && between[k] == path[i + k];
        }
      }
      assert between[0] == path[i] && between[|between| - 1] == path[j];
    }
  }

  lemma {:induction false} NoLongerThanItsMembers(path: seq<string>, members: set<string>)
    requires forall i :: 0 <= i < |path| ==> path[i] in members
    requires forall i, j :: 0 <= i < j < |path| ==> path[i] != path[j]
    ensures |path| <= |members|
    decreases |path|
  {
    if path == [] {
    } else {
      var last := path[|path| - 1];
      NoLongerThanItsMembers(path[..|path| - 1], members - {last});
    }
  }

  /** A revision some declaring file names as its parent. */
  ghost predicate HasChild(files: seq<File>, r: string) {
    exists c :: c in Revisions(files) && Child(files, r, c)
  }

  /** Every revision but the head is named by a file that declares itself. */
  ghost predicate OthersHaveChildren(files: seq<File>, head: string) {
    forall r :: r in Revisions(files) && r != head ==> HasChild(files, r)
  }

  ghost predicate AllAreAncestors(files: seq<File>, head: string) {
    forall r :: r in Revisions(files) ==> IsAncestor(files, r, head)
  }

  lemma OneStepLonger(files: seq<File>, path: seq<string>, c: string)
    requires Path(files, path) && c in Revisions(files) && Child(files, path[|path| - 1], c)
    ensures Path(files, path + [c])
  {
    var longer := path + [c];
    forall i | 0 < i < |longer| ensures Child(files, longer[i - 1], longer[i]) {
      assert i < |path| ==> Child(files, path[i - 1], path[i]);
    }
  }

  lemma OneStepEarlier(files: seq<File>, p: string, path: seq<string>)
    requires Path(files, path) && p in Revisions(files) && Child(files, p, path[0])
    ensures Path(files, [p] + path)
  {
    var longer := [p] + path;
    forall i | 0 < i < |longer| ensures Child(files, longer[i - 1], longer[i]) {
      assert i > 1 ==> Child(files, path[i - 2], path[i - 1]);
    }
  }

  /** Climbing from child to child ends at the head. */
  lemma {:induction false} ClimbToTheHead(files: seq<File>, head: string, path: seq<string>)
    requires Acyclic(files) && OthersHaveChildren(files, head) && Path(files, path)
    ensures IsAncestor(files, path[0], head)
    decreases |Revisions(files)| - |path|
  {
    var last := path[|path| - 1];
    if last == head {
    } else {
      assert HasChild(files, last);
      var c :| c in Revisions(files) && Child(files, last, c);
      OneStepLonger(files, path, c);
      PathsDoNotRepeat(files, path + [c]);
      NoLongerThanItsMembers(path + [c], Revisions(files));
      ClimbToTheHead(files, head, path + [c]);
    }
  }

  lemma AncestorsHaveChildren(files: seq<File>, r: string, head: string)
    requires IsAncestor(files, r, head) && r != head
    ensures HasChild(files, r)
  {
    var path :| Path(files, path) && path[0] == r && path[|path| - 1] == head;
    assert path[1] in Revisions(files) && Child(files, path[0], path[1]);
  }

  /** On acyclic edges, whatever the number of parents a file names, every revision is an ancestor
      of the head returned if and only if every other one is named by a file that declares itself. */
  lemma EveryRevisionIsAnAncestorExactlyWhen(files: seq<File>, head: string)
    requires Acyclic(files) && Revisions(files) - Parents(files) == {head}
    ensures AllAreAncestors(files, head) <==> OthersHaveChildren(files, head)
  {
    if OthersHaveChildren(files, head) {
      forall r | r in Revisions(files) ensures IsAncestor(files, r, head) {
        ClimbToTheHead(files, head, [r]);
      }
    }
    if AllAreAncestors(files, head) {
      forall r | r in Revisions(files) && r != head ensures HasChild(files, r) {
        AncestorsHaveChildren(files, r, head);
      }
    }
  }

  /** The chain as Alembic accepts it: acyclic, and every file that names a parent declares itself. */
  lemma EveryRevisionIsAnAncestor(files: seq<File>, head: string)
    requires Acyclic(files) && EveryFileDeclaresItself(files)
    requires Revisions(files) - Parents(files) == {head}
    ensures AllAreAncestors(files, head)
  {
    forall r | r in Revisions(files) && r != head ensures HasChild(files, r) {
      assert r in Revisions(files) - Parents(files) || r in Parents(files);
      var f, p :| f in files && p in f.downRevisions && p == r;
      assert f.revision.value in Revisions(files) && Child(files, r, f.revision.value);
    }
    EveryRevisionIsAnAncestorExactlyWhen(files, head);
  }

  // ---------------------------------------------------------------- with cycles allowed

  /** Revisions without the head, and with no child outside themselves: no way up to it. */
  ghost predicate ShutOff(files: seq<File>, head: string, part: set<string>) {
    && part != {} && part <= Revisions(files) && head !in part
    && (forall r, c :: r in part && c in Revisions(files) && Child(files, r, c) ==> c in part)
  }

  /** A path that starts in a shut-off part stays in it. */
  lemma {:induction false} ShutOffPathsStayIn(files: seq<File>, head: string, part: set<string>,
                                              path: seq<string>, i: nat)
    requires ShutOff(files, head, part) && Path(files, path) && path[0] in part && i < |path|
    ensures path[i] in part
  {
    if i == 0 {
    } else {
      ShutOffPathsStayIn(files, head, part, path, i - 1);
      assert Child(files, path[i - 1], path[i]);
    }
  }

  lemma ChildrenOfAncestors(files: seq<File>, r: string, c: string, head: string)
    requires r in Revisions(files) && Child(files, r, c) && IsAncestor(files, c, head)
    ensures IsAncestor(files, r, head)
  {
    var path :| Path(files, path) && path[0] == c && path[|path| - 1] == head;
    OneStepEarlier(files, r, path);
    assert ([r] + path)[0] == r && ([r] + path)[|path|] == head;
  }

  /** Whatever the edges, every revision is an ancestor of a head if and only if no set of
      revisions is shut off from it: a cycle does no harm while it has a way out. */
  lemma EveryRevisionIsAnAncestorUnlessShutOff(files: seq<File>, head: string)
    requires head in Revisions(files)
    ensures AllAreAncestors(files, head) <==> !exists part :: ShutOff(files, head, part)
  {
    var below := set r | r in Revisions(files) && !IsAncestor(files, r, head);
    if AllAreAncestors(files, head) {
      forall part ensures !ShutOff(files, head, part) {
        if ShutOff(files, head, part) {
          var r :| r in part;
          ShutOffReachesNoHead(files, head, part, r);
          assert false;
        }
      }
    } else {
      var r :| r in Revisions(files) && !IsAncestor(files, r, head);
      assert r in below;
      HeadIsItsOwnAncestor(files, head);
      forall r, c | r in below && c in Revisions(files) && Child(files, r, c) ensures c in below {
        if IsAncestor(files, c, head) { ChildrenOfAncestors(files, r, c, head); }
      }
      assert ShutOff(files, head, below);
    }
  }

  lemma HeadIsItsOwnAncestor(files: seq<File>, head: string)
    requires head in Revisions(files)
    ensures IsAncestor(files, head, head)
  {
    assert Path(files, [head]) && [head][0] == head;
  }

  lemma ShutOffReachesNoHead(files: seq<File>, head: string, part: set<string>, r: string)
    requires ShutOff(files, head, part) && r in part
    ensures !IsAncestor(files, r, head)
  {
    if IsAncestor(files, r, head) {
      var path :| Path(files, path) && path[0] == r && path[|path| - 1] == head;
      ShutOffPathsStayIn(files, head, part, path, |path| - 1);
    }
  }

  // ---------------------------------------------------------------- the chain a stamp stands for

  /** Alembic's walk down from a revision, one parent at a time. */
  ghost predicate DownChain(files: seq<File>, chain: seq<string>) {
    Path(files, Reversed(chain))
  }

  function Reversed(s: seq<string>): (r: seq<string>)
    ensures |r| == |s| && forall i :: 0 <= i < |s| ==> r[i] == s[|s| - 1 - i]
  {
    if s == [] then [] else Reversed(s[1..]) + [s[0]]
  }

  /** One parent at most per revision, each revision declared once. */
  ghost predicate SingleParents(files: seq<File>) {
    && (forall f :: f in files ==> |f.downRevisions| <= 1)
    && (forall f, g :: f in files && g in files && f.revision.Some? && f.revision == g.revision ==> f == g)
  }

  lemma {:induction false} SameFarFromTheHead(files: seq<File>, one: seq<string>, two: seq<string>, k: nat)
    requires SingleParents(files) && Path(files, one) && Path(files, two)
    requires one[|one| - 1] == two[|two| - 1] && k < |one| && k < |two|
    ensures one[|one| - 1 - k] == two[|two| - 1 - k]
  {
    if k == 0 {
    } else {
      SameFarFromTheHead(files, one, two, k - 1);
      assert Child(files, one[|one| - 1 - k], one[|one| - k]) && Child(files, two[|two| - 1 - k], two[|two| - k]);
    }
  }

  lemma PastTheEnd(files: seq<File>, path: seq<string>, walk: seq<string>)
    requires SingleParents(files) && Path(files, path) && Path(files, walk)
    requires path[|path| - 1] == walk[|walk| - 1] && |path| > |walk|
    ensures exists p :: p in Revisions(files) && Child(files, p, walk[0])
  {
    SameFarFromTheHead(files, path, walk, |walk| - 1);
    var top := |path| - |walk|;
    assert path[top - 1] in Revisions(files) && Child(files, path[top - 1], path[top]);
  }

  /** No declared revision is its parent: where a walk down ends. */
  ghost predicate IsRoot(files: seq<File>, r: string) {
    forall p :: p in Revisions(files) ==> !Child(files, p, r)
  }

  /** The whole walk down from the head, to a revision with no declared parent. */
  ghost predicate WholeWalk(files: seq<File>, head: string, chain: seq<string>) {
    DownChain(files, chain) && chain[0] == head && IsRoot(files, chain[|chain| - 1])
  }

  /** Going down from parent to parent ends, on acyclic edges. */
  lemma {:induction false} DescendToARoot(files: seq<File>, path: seq<string>) returns (walk: seq<string>)
    requires Acyclic(files) && Path(files, path)
    ensures Path(files, walk) && walk[|walk| - 1] == path[|path| - 1] && IsRoot(files, walk[0])
    decreases |Revisions(files)| - |path|
  {
    if IsRoot(files, path[0]) {
      walk := path;
    } else {
      var p :| p in Revisions(files) && Child(files, p, path[0]);
      OneStepEarlier(files, p, path);
      PathsDoNotRepeat(files, [p] + path);
      NoLongerThanItsMembers([p] + path, Revisions(files));
      walk := DescendToARoot(files, [p] + path);
    }
  }

  lemma AWholeWalkExists(files: seq<File>, head: string)
    requires Acyclic(files) && head in Revisions(files)
    ensures exists chain :: WholeWalk(files, head, chain)
  {
    var walk := DescendToARoot(files, [head]);
    assert Reversed(Reversed(walk)) == walk;
    assert WholeWalk(files, head, Reversed(walk));
  }

  /** With single parents the walk down passes every ancestor of where it began. */
  lemma TheWalkPassesEveryAncestor(files: seq<File>, head: string, chain: seq<string>, r: string)
    requires SingleParents(files) && WholeWalk(files, head, chain) && IsAncestor(files, r, head)
    ensures r in chain
  {
    var walk := Reversed(chain);
    var path :| Path(files, path) && path[0] == r && path[|path| - 1] == head;
    if |path| > |walk| {
      PastTheEnd(files, path, walk);
      assert false;
    }
    SameFarFromTheHead(files, path, walk, |path| - 1);
    assert chain[|path| - 1] == walk[|walk| - |path|];
  }

  lemma ThePassedAreAncestors(files: seq<File>, head: string, chain: seq<string>, r: string)
    requires DownChain(files, chain) && chain[0] == head && r in chain
    ensures IsAncestor(files, r, head)
  {
    var walk := Reversed(chain);
    var i :| 0 <= i < |chain| && chain[i] == r;
    var rest := walk[|walk| - 1 - i..];
    forall k | 0 < k < |rest| ensures Child(files, rest[k - 1], rest[k]) {
      assert Child(files, walk[|walk| - 1 - i + k - 1], walk[|walk| - 1 - i + k]);
    }
    assert Path(files, rest) && rest[0] == r && rest[|rest| - 1] == head;
  }

  /** Round a cycle as often as it takes. */
  lemma {:induction false} RoundTheCycle(files: seq<File>, cycle: seq<string>, n: nat) returns (path: seq<string>)
    requires Path(files, cycle) && |cycle| > 1 && cycle[0] == cycle[|cycle| - 1]
    ensures Path(files, path) && |path| > n && path[|path| - 1] == cycle[0] && path[0] == cycle[0]
  {
    if n == 0 {
      path := cycle;
    } else {
      var before := RoundTheCycle(files, cycle, n - 1);
      path := before + cycle[1..];
      forall i | 0 < i < |path| ensures Child(files, path[i - 1], path[i]) {
        if i < |before| {
          assert Child(files, before[i - 1], before[i]);
        } else {
          assert Child(files, cycle[i - |before|], cycle[i - |before| + 1]);
        }
      }
    }
  }

  lemma JoinedPaths(files: seq<File>, one: seq<string>, two: seq<string>)
    requires Path(files, one) && Path(files, two) && one[|one| - 1] == two[0]
    ensures Path(files, one + two[1..]) && (one + two[1..])[|one| + |two| - 2] == two[|two| - 1]
  {
    var path := one + two[1..];
    forall i | 0 < i < |path| ensures Child(files, path[i - 1], path[i]) {
      if i < |one| {
        assert Child(files, one[i - 1], one[i]);
      } else {
        assert Child(files, two[i - |one|], two[i - |one| + 1]);
      }
    }
  }

  /** With single parents a walk that ends has no cycle below the head. */
  lemma AWholeWalkMeetsNoCycle(files: seq<File>, head: string, chain: seq<string>, cycle: seq<string>)
    requires SingleParents(files) && WholeWalk(files, head, chain)
    requires Path(files, cycle) && |cycle| > 1 && IsAncestor(files, cycle[0], head)
    ensures cycle[0] != cycle[|cycle| - 1]
  {
    if cycle[0] == cycle[|cycle| - 1] {
      var up :| Path(files, up) && up[0] == cycle[0] && up[|up| - 1] == head;
      var round := RoundTheCycle(files, cycle, |chain|);
      JoinedPaths(files, round, up);
      PastTheEnd(files, round + up[1..], Reversed(chain));
    }
  }

  ghost predicate TheWalkHoldsEveryRevision(files: seq<File>, head: string) {
    exists chain :: WholeWalk(files, head, chain) && forall r :: r in Revisions(files) ==> r in chain
  }

  /** With single parents, the walk from the head returned down to a revision with no declared
      parent exists and holds every revision if and only if the edges are acyclic and every other
      revision is named by a file that declares itself. */
  lemma TheHeadsChainHoldsEveryRevision(files: seq<File>, head: string)
    requires SingleParents(files) && Revisions(files) - Parents(files) == {head}
    ensures TheWalkHoldsEveryRevision(files, head) <==> Acyclic(files) && OthersHaveChildren(files, head)
  {
    assert head in Revisions(files);
    if Acyclic(files) && OthersHaveChildren(files, head) {
      AWholeWalkExists(files, head);
      EveryRevisionIsAnAncestorExactlyWhen(files, head);
      var chain :| WholeWalk(files, head, chain);
      forall r | r in Revisions(files) ensures r in chain {
        TheWalkPassesEveryAncestor(files, head, chain, r);
      }
    }
    if TheWalkHoldsEveryRevision(files, head) {
      AHeldChainIsAcyclic(files, head);
    }
  }

  lemma AHeldChainIsAcyclic(files: seq<File>, head: string)
    requires SingleParents(files) && Revisions(files) - Parents(files) == {head}
    requires TheWalkHoldsEveryRevision(files, head)
    ensures Acyclic(files) && OthersHaveChildren(files, head)
  {
    var chain :| WholeWalk(files, head, chain) && forall r :: r in Revisions(files) ==> r in chain;
    forall r | r in Revisions(files) ensures IsAncestor(files, r, head) {
      ThePassedAreAncestors(files, head, chain, r);
    }
    forall path | Path(files, path) && |path| > 1 ensures path[0] != path[|path| - 1] {
      AWholeWalkMeetsNoCycle(files, head, chain, path);
    }
    EveryRevisionIsAnAncestorExactlyWhen(files, head);
  }

  // ---------------------------------------------------------------- inputs where a head misses a revision

  const CYCLE := [File(Some("a"), ["b"]), File(Some("b"), ["a"]), File(Some("c"), [])]
  const UNDECLARED := [File(Some("a"), []), File(None, ["a"]), File(Some("b"), [])]

  /** Nobody's child is an ancestor of nobody else. */
  lemma OnlyItselfBelow(files: seq<File>, r: string, head: string)
    requires IsAncestor(files, r, head) && r != head
    ensures exists p :: Child(files, p, head)
  {
    var path :| Path(files, path) && path[0] == r && path[|path| - 1] == head;
    assert Child(files, path[|path| - 2], path[|path| - 1]);
  }

  lemma ThreeFiles(f: File, g: File, h: File)
    ensures forall x :: x in [f, g, h] <==> x == f || x == g || x == h
  {
  }

  /** Beside a cycle a head is returned that does not stand for every revision. */
  lemma ACycleIsMissed()
    ensures Revisions(CYCLE) - Parents(CYCLE) == {"c"} && EveryFileDeclaresItself(CYCLE)
    ensures "a" in Revisions(CYCLE) && !IsAncestor(CYCLE, "a", "c")
  {
    var f, g, h := File(Some("a"), ["b"]), File(Some("b"), ["a"]), File(Some("c"), []);
    ThreeFiles(f, g, h);
    assert f in CYCLE && g in CYCLE && h in CYCLE;
    assert "b" in f.downRevisions && "a" in g.downRevisions;
    assert Revisions(CYCLE) == {"a", "b", "c"};
    assert Parents(CYCLE) == {"a", "b"};
    assert forall p :: !Child(CYCLE, p, "c");
    if IsAncestor(CYCLE, "a", "c") { OnlyItselfBelow(CYCLE, "a", "c"); }
  }

  lemma ACycleHasAChild(files: seq<File>)
    ensures Acyclic(files) || exists p, q :: Child(files, p, q)
  {
    if !Acyclic(files) {
      var path :| Path(files, path) && |path| > 1 && path[0] == path[|path| - 1];
      assert Child(files, path[0], path[1]);
    }
  }

  /** So it is when a file names a parent and no id of its own. */
  lemma AnUndeclaredFileHidesAHead()
    ensures Revisions(UNDECLARED) - Parents(UNDECLARED) == {"b"} && Acyclic(UNDECLARED)
    ensures "a" in Revisions(UNDECLARED) && !IsAncestor(UNDECLARED, "a", "b")
  {
    var f, g, h := File(Some("a"), []), File(None, ["a"]), File(Some("b"), []);
    ThreeFiles(f, g, h);
    assert f in UNDECLARED && g in UNDECLARED && h in UNDECLARED;
    assert "a" in g.downRevisions;
    assert Revisions(UNDECLARED) == {"a", "b"};
    assert Parents(UNDECLARED) == {"a"};
    assert forall p, q :: !Child(UNDECLARED, p, q);
    ACycleHasAChild(UNDECLARED);
    if IsAncestor(UNDECLARED, "a", "b") { OnlyItselfBelow(UNDECLARED, "a", "b"); }
  }
}
