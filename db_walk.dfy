/**
 * What `cmgd_walk_db_nodes` (cmgd/cmgd_db.c) records, as functions of the
 * tree, the base xpath, the caller's `*num_nodes` budget and the two flags
 * that change its course: `childs_as_well` and whether an `xpaths` array was
 * passed (without one the path handed to a recursive call is NULL).
 *
 * `Walk` follows one call: a zero budget returns at once with nothing
 * recorded; a failed `lyd_find_xpath` fails the call; otherwise the matches
 * are recorded by `WalkSet`. `WalkSet` follows the loop over the matching
 * set: each match is recorded, and when children are wanted and the set
 * holds more than one match the walk recurses into the match with the budget
 * left, stopping the loop (but not failing) when that call fails.
 */
module DbWalk {
  import opened Optional
  import opened XpathWildcard
  import opened DataTree

  datatype WalkOutcome = WalkFailed | Walked(found: seq<Path>)

  /** The base handed to the recursive call for match `m`: its path, or NULL without an `xpaths` array. */
  function ChildBase(m: Path, keepPaths: bool): Option<Path>
  {
    if keepPaths then Some(m) else None
  }

  /**
   * One call from the base `base`: nothing at a zero budget, a failure when
   * the evaluation fails, otherwise the loop over the matching set.
   */
  function Walk(t: Tree, base: Option<string>, budget: int, childs: bool, keepPaths: bool): WalkOutcome
    requires WF(t)
    decreases Bound(t, Query(base)), 2
  {
    if budget == 0 then Walked([])
    else match FindXpath(t, Query(base))
      case None => WalkFailed
      case Some(ms) => Walked(WalkSet(t, ms, 0, budget, childs, keepPaths))
  }

  /** The walk into a node's children measures less than the node. */
  lemma ChildBound(t: Tree, m: Path, keepPaths: bool)
    requires WF(t) && m in t.nodes
    ensures Bound(t, Query(ChildBase(m, keepPaths))) < Rank(t, m)
  {
    if keepPaths {
      FindChildren(t, m);
      KidsBelow(t, m);
    }
  }

  /**
   * The recursive call for match `m`: the walk from the match's own path (so
   * its matches are the match's children), or from NULL without an `xpaths`
   * array. Every match is a node of the tree; for any other path there is
   * nothing to walk.
   */
  function ChildWalk(t: Tree, m: Path, budget: int, childs: bool, keepPaths: bool): WalkOutcome
    requires WF(t)
    decreases Rank(t, m), 0
  {
    if m in t.nodes then
      ChildBound(t, m, keepPaths);
      Walk(t, ChildBase(m, keepPaths), budget, childs, keepPaths)
    else Walked([])
  }

  function WalkSet(t: Tree, ms: seq<Path>, i: nat, left: int, childs: bool, keepPaths: bool): seq<Path>
    requires WF(t) && i <= |ms|
    decreases HeightOf(t, ms), 1, |ms| - i
  {
    if i == |ms| then []
    else
      var m := ms[i];
      if childs && |ms| > 1 then
        HeightOfAbove(t, ms, m);
        match ChildWalk(t, m, left - 1, childs, keepPaths)
        case WalkFailed => [m]
        case Walked(sub) => [m] + sub + WalkSet(t, ms, i + 1, left - 1 - |sub|, childs, keepPaths)
      else
        [m] + WalkSet(t, ms, i + 1, left - 1, childs, keepPaths)
  }

  /** For a node of the tree, the recursive call from its path is the walk from that path. */
  lemma ChildWalkIsWalk(t: Tree, m: Path, budget: int, childs: bool, keepPaths: bool)
    requires WF(t) && m in t.nodes
    ensures Walk(t, ChildBase(m, keepPaths), budget, childs, keepPaths) == ChildWalk(t, m, budget, childs, keepPaths)
  {
    if keepPaths {
      FindChildren(t, m);
    }
  }

  /** One call of `iter_fn`: the xpath, the data node and the northbound node it is given. */
  datatype Visit = Visit(xpath: Option<Path>, node: Path, nb: Option<nat>)

  /**
   * The calls `iter_fn` receives for the recorded nodes, in order. The xpath is
   * NULL without an `xpaths` array and the northbound node NULL without an
   * `nbnodes` array.
   */
  function Visits(t: Tree, found: seq<Path>, keepPaths: bool, keepNb: bool): (r: seq<Visit>)
    ensures |r| == |found|
  {
    if found == [] then []
    else [Visit(if keepPaths then Some(found[0]) else None, found[0],
                if keepNb then Some(Schema(t, found[0])) else None)]
         + Visits(t, found[1..], keepPaths, keepNb)
  }

  /** The `j`th call of `iter_fn` is given the `j`th recorded node. */
  lemma {:induction false} VisitsAt(t: Tree, found: seq<Path>, keepPaths: bool, keepNb: bool, j: nat)
    requires j < |found|
    ensures Visits(t, found, keepPaths, keepNb)[j] ==
            Visit(if keepPaths then Some(found[j]) else None, found[j], if keepNb then Some(Schema(t, found[j])) else None)
  {
    if j > 0 {
      VisitsAt(t, found[1..], keepPaths, keepNb, j - 1);
    }
  }

  /** The northbound node of each recorded path, as the `nbnodes` array should hold it. */
  function Schemas(t: Tree, s: seq<Path>): (r: seq<nat>)
    ensures |r| == |s| && forall j :: 0 <= j < |s| ==> r[j] == Schema(t, s[j])
  {
    if s == [] then [] else [Schema(t, s[0])] + Schemas(t, s[1..])
  }

  /** One step of the loop when it walks into the match's children and that walk succeeds. */
  lemma WalkSetDescends(t: Tree, ms: seq<Path>, i: nat, j: nat, left: int, childs: bool, keepPaths: bool, sub: seq<Path>, rest: int)
    requires WF(t) && i < |ms| && j == i + 1 && childs && |ms| > 1
    requires ChildWalk(t, ms[i], left - 1, childs, keepPaths) == Walked(sub)
    requires rest == left - 1 - |sub|
    ensures WalkSet(t, ms, i, left, childs, keepPaths) == [ms[i]] + sub + WalkSet(t, ms, j, rest, childs, keepPaths)
  {
  }

  /** One step of the loop when it walks into the match's children and that walk fails. */
  lemma WalkSetStops(t: Tree, ms: seq<Path>, i: nat, left: int, childs: bool, keepPaths: bool)
    requires WF(t) && i < |ms| && childs && |ms| > 1
    requires ChildWalk(t, ms[i], left - 1, childs, keepPaths) == WalkFailed
    ensures WalkSet(t, ms, i, left, childs, keepPaths) == [ms[i]]
  {
  }

  /** One step of the loop when it does not walk into the children. */
  lemma WalkSetRecordsOnly(t: Tree, ms: seq<Path>, i: nat, j: nat, left: int, childs: bool, keepPaths: bool, rest: int)
    requires WF(t) && i < |ms| && j == i + 1 && !(childs && |ms| > 1) && rest == left - 1
    ensures WalkSet(t, ms, i, left, childs, keepPaths) == [ms[i]] + WalkSet(t, ms, j, rest, childs, keepPaths)
  {
  }

  /** A single recorded match is visited once, with what the arrays hold for it. */
  lemma VisitsOne(t: Tree, m: Path, keepPaths: bool, keepNb: bool)
    ensures Visits(t, [m], keepPaths, keepNb) ==
            [Visit(if keepPaths then Some(m) else None, m, if keepNb then Some(Schema(t, m)) else None)]
  {
    assert [m][1..] == [];
  }

  lemma {:induction false} VisitsAppend(t: Tree, a: seq<Path>, b: seq<Path>, keepPaths: bool, keepNb: bool)
    ensures Visits(t, a + b, keepPaths, keepNb) == Visits(t, a, keepPaths, keepNb) + Visits(t, b, keepPaths, keepNb)
  {
    if a == [] {
      assert a + b == b;
    } else {
      assert (a + b)[0] == a[0] && (a + b)[1..] == a[1..] + b;
      VisitsAppend(t, a[1..], b, keepPaths, keepNb);
      var x := Visit(if keepPaths then Some(a[0]) else None, a[0], if keepNb then Some(Schema(t, a[0])) else None);
      var p, q := Visits(t, a[1..], keepPaths, keepNb), Visits(t, b, keepPaths, keepNb);
      assert [x] + (p + q) == ([x] + p) + q;
    }
  }

  // ---------------------------------------------------------------------
  // Properties of the walk

  /** A zero budget records nothing and succeeds, whatever the base. */
  lemma ZeroBudgetRecordsNothing(t: Tree, base: Option<string>, childs: bool, keepPaths: bool)
    requires WF(t)
    ensures Walk(t, base, 0, childs, keepPaths) == Walked([])
  {
  }

  /** A nonzero budget fails exactly when the evaluation fails: for a NULL base, or one whose query libyang refuses. */
  lemma FailsIffNoBase(t: Tree, base: Option<string>, budget: int, childs: bool, keepPaths: bool)
    requires WF(t) && budget != 0
    ensures Walk(t, base, budget, childs, keepPaths).WalkFailed? <==>
              base.None? || AppendWildcard(base.value) in t.refused
  {
  }

  /** Without `childs_as_well` the loop records exactly the matching set, once each and in set order. */
  lemma {:induction false} FlatSetRecordsMatches(t: Tree, ms: seq<Path>, i: nat, left: int, keepPaths: bool)
    requires WF(t) && i <= |ms|
    ensures WalkSet(t, ms, i, left, false, keepPaths) == ms[i..]
    decreases |ms| - i
  {
    if i < |ms| {
      FlatSetRecordsMatches(t, ms, i + 1, left - 1, keepPaths);
      assert ms[i..] == [ms[i]] + ms[i + 1..];
    }
  }

  /**
   * Without `childs_as_well` a plain base records exactly its children,
   * whatever nonzero budget was given, unless libyang refuses its query.
   */
  lemma FlatWalkRecordsChildren(t: Tree, b: Path, budget: int, keepPaths: bool)
    requires WF(t) && PlainPath(b) && budget != 0
    ensures AppendWildcard(b) in t.refused ==> Walk(t, Some(b), budget, false, keepPaths) == WalkFailed
    ensures AppendWildcard(b) !in t.refused ==> Walk(t, Some(b), budget, false, keepPaths) == Walked(Kids(t, b))
  {
    FindChildren(t, b);
    FlatSetRecordsMatches(t, Kids(t, b), 0, budget, keepPaths);
  }

  /**
   * The budget nobody checks: a budget of 1 still records every match, so the
   * count can exceed the caller's capacity (hence the capacity precondition of
   * the walk).
   */
  lemma BudgetIsNotACap(t: Tree, b: Path)
    requires WF(t) && PlainPath(b) && b in t.nodes
    ensures Walk(t, Some(b), 1, false, true) == Walked(t.nodes[b].kids)
  {
    FlatWalkRecordsChildren(t, b, 1, true);
  }

  /**
   * Without an `xpaths` array a walk into children hands NULL to the recursive
   * call, which fails, so the loop stops after the first match. (With a
   * budget of 1 the first recursive call gets budget 0 and succeeds, so the
   * loop stops after the second match instead.)
   */
  lemma NoPathsStopsAfterFirst(t: Tree, base: Option<string>, budget: int)
    requires WF(t) && budget != 0 && budget != 1 && FindXpath(t, Query(base)).Some?
    requires |FindXpath(t, Query(base)).value| > 1
    ensures Walk(t, base, budget, true, false) == Walked([FindXpath(t, Query(base)).value[0]])
  {
    var ms := FindXpath(t, Query(base)).value;
    WalkSetStops(t, ms, 0, budget, true, false);
  }

  lemma NoPathsBudgetOne(t: Tree, base: Option<string>)
    requires WF(t) && FindXpath(t, Query(base)).Some?
    requires |FindXpath(t, Query(base)).value| > 1
    ensures var ms := FindXpath(t, Query(base)).value;
            Walk(t, base, 1, true, false) == Walked([ms[0], ms[1]])
  {
    var ms := FindXpath(t, Query(base)).value;
    WalkSetDescends(t, ms, 0, 1, 1, true, false, [], 0);
    WalkSetStops(t, ms, 1, 0, true, false);
  }

  /**
   * A walk from a plain base fails exactly when libyang refuses its query
   * at a nonzero budget, and everything it records lies strictly below the base.
   */
  lemma WalkStaysBelow(t: Tree, b: Path, budget: int, childs: bool, keepPaths: bool)
    requires WF(t) && PlainPath(b)
    ensures Walk(t, Some(b), budget, childs, keepPaths).WalkFailed? <==> budget != 0 && AppendWildcard(b) in t.refused
    ensures Walk(t, Some(b), budget, childs, keepPaths).Walked? ==>
              forall m :: m in Walk(t, Some(b), budget, childs, keepPaths).found ==> ChildPath(m, b)
  {
    if budget != 0 {
      FindChildren(t, b);
      SetStaysBelow(t, b, Kids(t, b), 0, budget, childs, keepPaths);
    }
  }

  lemma {:induction false} ChildStaysBelow(t: Tree, b: Path, budget: int, childs: bool, keepPaths: bool)
    requires WF(t)
    ensures ChildWalk(t, b, budget, childs, keepPaths).Walked? ==>
              forall m :: m in ChildWalk(t, b, budget, childs, keepPaths).found ==> ChildPath(m, b)
    decreases Rank(t, b), 0
  {
    if budget != 0 && keepPaths {
      KidsBelow(t, b);
      SetStaysBelow(t, b, Kids(t, b), 0, budget, childs, keepPaths);
    }
  }

  lemma {:induction false} SetStaysBelow(t: Tree, b: Path, ms: seq<Path>, i: nat, left: int, childs: bool, keepPaths: bool)
    requires WF(t) && i <= |ms| && ms == Kids(t, b)
    ensures forall m :: m in WalkSet(t, ms, i, left, childs, keepPaths) ==> ChildPath(m, b)
    decreases HeightOf(t, ms), 1, |ms| - i
  {
    if i < |ms| {
      var m := ms[i];
      assert ChildPath(m, b);
      if childs && |ms| > 1 {
        HeightOfAbove(t, ms, m);
        ChildStaysBelow(t, m, left - 1, childs, keepPaths);
        match ChildWalk(t, m, left - 1, childs, keepPaths)
        case WalkFailed =>
        case Walked(sub) =>
          forall x | x in sub ensures ChildPath(x, b) {
            UnderStep(m, x, b);
          }
          SetStaysBelow(t, b, ms, i + 1, left - 1 - |sub|, childs, keepPaths);
      } else {
        SetStaysBelow(t, b, ms, i + 1, left - 1, childs, keepPaths);
      }
    }
  }

  /** Everything the loop records from a set of tree nodes is a node of the tree. */
  lemma {:induction false} SetInTree(t: Tree, ms: seq<Path>, i: nat, left: int, childs: bool, keepPaths: bool)
    requires WF(t) && i <= |ms| && forall m :: m in ms ==> m in t.nodes
    ensures forall m :: m in WalkSet(t, ms, i, left, childs, keepPaths) ==> m in t.nodes
    decreases HeightOf(t, ms), 1, |ms| - i
  {
    if i < |ms| {
      var m := ms[i];
      if childs && |ms| > 1 {
        HeightOfAbove(t, ms, m);
        ChildInTree(t, m, left - 1, childs, keepPaths);
        match ChildWalk(t, m, left - 1, childs, keepPaths)
        case WalkFailed =>
        case Walked(sub) =>
          SetInTree(t, ms, i + 1, left - 1 - |sub|, childs, keepPaths);
      } else {
        SetInTree(t, ms, i + 1, left - 1, childs, keepPaths);
      }
    }
  }

  lemma {:induction false} ChildInTree(t: Tree, m: Path, budget: int, childs: bool, keepPaths: bool)
    requires WF(t)
    ensures ChildWalk(t, m, budget, childs, keepPaths).Walked? ==>
              forall x :: x in ChildWalk(t, m, budget, childs, keepPaths).found ==> x in t.nodes
    decreases Rank(t, m), 0
  {
    if budget != 0 && keepPaths {
      KidsBelow(t, m);
      SetInTree(t, Kids(t, m), 0, budget, childs, keepPaths);
    }
  }

  /** A walk records only nodes of the tree, so each northbound node it stores is that node's own. */
  lemma WalkInTree(t: Tree, base: Option<string>, budget: int, childs: bool, keepPaths: bool)
    requires WF(t)
    ensures Walk(t, base, budget, childs, keepPaths).Walked? ==>
              forall m :: m in Walk(t, base, budget, childs, keepPaths).found ==> m in t.nodes
  {
    if budget != 0 && FindXpath(t, Query(base)).Some? {
      SetInTree(t, FindXpath(t, Query(base)).value, 0, budget, childs, keepPaths);
    }
  }

  /** Every match of the set is recorded, each before the nodes recorded after it, in set order. */
  lemma MatchesComeFirst(t: Tree, ms: seq<Path>, i: nat, left: int, childs: bool, keepPaths: bool)
    requires WF(t) && i < |ms|
    ensures var r := WalkSet(t, ms, i, left, childs, keepPaths); |r| > 0 && r[0] == ms[i]
  {
  }

  // ---------------------------------------------------------------------
  // The `nbnodes` entries as the source writes them

  /**
   * What the source stores in `nbnodes`: for the match at set index `indx` it
   * takes the schema of `dnodes[indx]`, the `indx`-th node recorded at this
   * level, rather than of the match just stored at `dnodes[*num_nodes]`. Once
   * a recursive call has recorded descendants the two differ.
   */
  function NbWalkAsWritten(t: Tree, base: Option<string>, budget: int, childs: bool, keepPaths: bool): seq<nat>
    requires WF(t)
    decreases Bound(t, Query(base)), 2
  {
    if budget == 0 then []
    else match FindXpath(t, Query(base))
      case None => []
      case Some(ms) => NbSetAsWritten(t, ms, 0, budget, childs, keepPaths, [])
  }

  /** The `nbnodes` entries the recursive call for match `m` writes, as the source writes them. */
  function NbChildAsWritten(t: Tree, m: Path, budget: int, childs: bool, keepPaths: bool): seq<nat>
    requires WF(t)
    decreases Rank(t, m), 0
  {
    if m in t.nodes then
      ChildBound(t, m, keepPaths);
      NbWalkAsWritten(t, ChildBase(m, keepPaths), budget, childs, keepPaths)
    else []
  }

  /** `level` is everything this level has recorded before the match at `i`. */
  function NbSetAsWritten(t: Tree, ms: seq<Path>, i: nat, left: int, childs: bool, keepPaths: bool, level: seq<Path>): seq<nat>
    requires WF(t) && i <= |ms| && i <= |level|
    decreases HeightOf(t, ms), 1, |ms| - i
  {
    if i == |ms| then []
    else
      var m := ms[i];
      var lv := level + [m];
      var nb := Schema(t, lv[i]);
      if childs && |ms| > 1 then
        HeightOfAbove(t, ms, m);
        match ChildWalk(t, m, left - 1, childs, keepPaths)
        case WalkFailed => [nb]
        case Walked(sub) =>
          [nb] + NbChildAsWritten(t, m, left - 1, childs, keepPaths)
          + NbSetAsWritten(t, ms, i + 1, left - 1 - |sub|, childs, keepPaths, lv + sub)
      else
        [nb] + NbSetAsWritten(t, ms, i + 1, left - 1, childs, keepPaths, lv)
  }

  /** One step of the as-written loop when it walks into the match's children and that walk succeeds. */
  lemma NbSetDescends(t: Tree, ms: seq<Path>, i: nat, j: nat, left: int, childs: bool, keepPaths: bool,
                      level: seq<Path>, sub: seq<Path>, rest: int, next: seq<Path>)
    requires WF(t) && i < |ms| && i <= |level| && j == i + 1 && childs && |ms| > 1
    requires ChildWalk(t, ms[i], left - 1, childs, keepPaths) == Walked(sub)
    requires rest == left - 1 - |sub| && next == level + [ms[i]] + sub
    ensures NbSetAsWritten(t, ms, i, left, childs, keepPaths, level) ==
            [Schema(t, (level + [ms[i]])[i])] + NbChildAsWritten(t, ms[i], left - 1, childs, keepPaths)
            + NbSetAsWritten(t, ms, j, rest, childs, keepPaths, next)
  {
  }

  /** The paths of a sample tree: a container `/rt` with children `/rt/a` (which has a child `/rt/a/x`) and `/rt/b`. */
  const Rt: Path := "/rt"
  const RtA: Path := "/rt/a"
  const RtAX: Path := "/rt/a/x"
  const RtB: Path := "/rt/b"

  /** The sample tree; the northbound nodes of `/rt/a`, `/rt/a/x` and `/rt/b` are 1, 3 and 2. */
  const SampleTree: Tree := Tree(map[
    Rt := Node([RtA, RtB], 2, 0),
    RtA := Node([RtAX], 1, 1),
    RtAX := Node([], 0, 3),
    RtB := Node([], 0, 2)], {})

  lemma SampleTreeWF()
    ensures WF(SampleTree)
  {
    assert RtA[..4] == Rt + "/";
    assert RtB[..4] == Rt + "/";
    assert RtAX[..6] == RtA + "/";
  }

  /** The walk into `/rt/a` records its one child, whose northbound node is 3. */
  lemma SampleChildA()
    ensures WF(SampleTree)
    ensures ChildWalk(SampleTree, RtA, 127, true, true) == Walked([RtAX])
    ensures NbChildAsWritten(SampleTree, RtA, 127, true, true) == [3]
  {
    SampleTreeWF();
    var t := SampleTree;
    FindChildren(t, RtA);
    var ms := [RtAX];
    WalkSetRecordsOnly(t, ms, 0, 1, 127, true, true, 126);
    assert NbSetAsWritten(t, ms, 0, 127, true, true, []) == [3] + NbSetAsWritten(t, ms, 1, 126, true, true, ms);
  }

  /** The walk into `/rt/b`, a leaf, records nothing. */
  lemma SampleChildB()
    ensures WF(SampleTree)
    ensures ChildWalk(SampleTree, RtB, 125, true, true) == Walked([])
    ensures NbChildAsWritten(SampleTree, RtB, 125, true, true) == []
  {
    SampleTreeWF();
    var t := SampleTree;
    FindChildren(t, RtB);
    assert Kids(t, RtB) == [];
    assert WalkSet(t, [], 0, 125, true, true) == [];
    assert NbSetAsWritten(t, [], 0, 125, true, true, []) == [];
  }

  /** Walking `/rt` with children records `/rt/a`, then its child `/rt/a/x`, then `/rt/b`. */
  lemma SampleTreeWalk()
    ensures WF(SampleTree)
    ensures Walk(SampleTree, Some(Rt), 128, true, true) == Walked([RtA, RtAX, RtB])
  {
    SampleChildA();
    SampleChildB();
    var t := SampleTree;
    FindChildren(t, Rt);
    var top := [RtA, RtB];
    WalkSetDescends(t, top, 0, 1, 128, true, true, [RtAX], 126);
    WalkSetDescends(t, top, 1, 2, 126, true, true, [], 125);
    assert WalkSet(t, top, 2, 125, true, true) == [];
    assert [RtA] + [RtAX] + ([RtB] + [] + []) == [RtA, RtAX, RtB];
  }

  /** The northbound nodes of the recorded paths are 1, 3 and 2. */
  lemma SampleSchemas()
    ensures Schemas(SampleTree, [RtA, RtAX, RtB]) == [1, 3, 2]
  {
    assert Schema(SampleTree, RtA) == 1 && Schema(SampleTree, RtAX) == 3 && Schema(SampleTree, RtB) == 2;
  }

  /** As written, the second match of `/rt` stores the schema of `dnodes[1]`, which is `/rt/a/x`. */
  lemma SampleNbSecond(level: seq<Path>)
    requires |level| == 2 && level[1] == RtAX
    ensures WF(SampleTree)
    ensures NbSetAsWritten(SampleTree, [RtA, RtB], 1, 126, true, true, level) == [3]
  {
    SampleChildB();
    var t := SampleTree;
    var top := [RtA, RtB];
    var next := level + [RtB] + [];
    NbSetDescends(t, top, 1, 2, 126, true, true, level, [], 125, next);
    assert (level + [RtB])[1] == RtAX;
    assert NbSetAsWritten(t, top, 2, 125, true, true, next) == [];
    assert [3] + [] + [] == [3];
  }

  /**
   * Walking `/rt` with children records `/rt/a`, `/rt/a/x`, `/rt/b`, whose
   * northbound nodes are 1, 3, 2; the source stores 1, 3, 3, giving `/rt/b`
   * the northbound node of `/rt/a/x`.
   */
  lemma NbAsWrittenMismatch()
    ensures WF(SampleTree)
    ensures Walk(SampleTree, Some(Rt), 128, true, true) == Walked([RtA, RtAX, RtB])
    ensures Schemas(SampleTree, [RtA, RtAX, RtB]) == [1, 3, 2]
    ensures NbWalkAsWritten(SampleTree, Some(Rt), 128, true, true) == [1, 3, 3]
  {
    SampleTreeWalk();
    SampleSchemas();
    SampleChildA();
    var t := SampleTree;
    FindChildren(t, Rt);
    var top := [RtA, RtB];
    var level := [] + [RtA] + [RtAX];
    SampleNbSecond(level);
    NbSetDescends(t, top, 0, 1, 128, true, true, [], [RtAX], 126, level);
    assert ([] + [RtA])[0] == RtA;
    assert [1] + [3] + [3] == [1, 3, 3];
  }
}
