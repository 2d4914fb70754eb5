/**
 * The datastore layer of cmgd (cmgd/cmgd_db.c): three statically allocated
 * datastore contexts, the handle lookups on them, the batched walk that
 * fills the caller's arrays, lookup, delete and iteration.
 *
 * A `cmgd_db_hndl_t` is a `DbCtxt?` (0 is null). The union `root` of a
 * context is two fields of which `Data()` reads the one `config_db`
 * selects. Read/write locks are pthread calls whose result is a parameter.
 */
module CmgdDb {
  import opened Optional
  import opened XpathWildcard
  import opened DataTree
  import opened DbWalk
  import opened DbNames

  /** NB_ERR_NOT_FOUND of the northbound error enumeration. */
  const NbErrNotFound: int := 3

  /** CMGD_MAX_NUM_DBNODES_PER_BATCH, the array size `cmgd_db_iter_data` uses. */
  const MaxNumDbNodesPerBatch: nat := 128

  /** `struct nb_config`, reduced to its data tree. */
  class NbConfig {
    var dnode: Tree

    constructor (t: Tree)
      ensures dnode == t
    {
      dnode := t;
    }
  }

  /** `cmgd_db_ctxt_t`. */
  class DbCtxt {
    var dbId: nat
    var configDb: bool
    var cfgRoot: NbConfig?
    var dnodeRoot: Tree

    /** A zero-initialised static context. */
    constructor ()
      ensures dbId == DbNone && !configDb && cfgRoot == null && dnodeRoot == EmptyTree
    {
      dbId := DbNone;
      configDb := false;
      cfgRoot := null;
      dnodeRoot := EmptyTree;
    }

    /** A config datastore has a configuration to read its tree from. */
    predicate Valid()
      reads this
    {
      configDb ==> cfgRoot != null
    }

    /** The tree the context's operations work on: `cfg_root->dnode` or `dnode_root`. */
    function Data(): Tree
      reads this, cfgRoot
      requires Valid()
    {
      if configDb then cfgRoot.dnode else dnodeRoot
    }

    /** Replaces the tree `Data()` reads, leaving the context's kind alone. */
    method SetData(t: Tree)
      requires Valid()
      modifies this, cfgRoot
      ensures Valid() && Data() == t
      ensures dbId == old(dbId) && configDb == old(configDb) && cfgRoot == old(cfgRoot)
      ensures configDb ==> dnodeRoot == old(dnodeRoot)
    {
      if configDb {
        cfgRoot.dnode := t;
      } else {
        dnodeRoot := t;
      }
    }
  }

  /** The three handle fields of `struct cmgd_master`. */
  class Master {
    var runningDb: DbCtxt?
    var candidateDb: DbCtxt?
    var operDb: DbCtxt?

    constructor ()
      ensures runningDb == null && candidateDb == null && operDb == null
    {
      runningDb := null;
      candidateDb := null;
      operDb := null;
    }
  }

  datatype InitResult = Aborted | Returned(code: int)

  /** The file-scope state of cmgd/cmgd_db.c: `cmgd_db_cm` and the contexts `running`, `candidate`, `oper`. */
  class DbModule {
    var dbCm: Master?
    const running: DbCtxt
    const candidate: DbCtxt
    const oper: DbCtxt

    constructor ()
      ensures dbCm == null
      ensures fresh(running) && fresh(candidate) && fresh(oper)
      ensures running != candidate && candidate != oper && running != oper
      ensures running.cfgRoot == null && candidate.cfgRoot == null && oper.cfgRoot == null
    {
      dbCm := null;
      running := new DbCtxt();
      candidate := new DbCtxt();
      oper := new DbCtxt();
    }

    /** The state `cmgd_db_init` leaves behind for master `cm`. */
    predicate Initialised(cm: Master)
      reads this, running, candidate, oper, cm
    {
      dbCm == cm &&
      cm.runningDb == running && cm.candidateDb == candidate && cm.operDb == oper &&
      running != candidate && candidate != oper && running != oper &&
      running.configDb && running.dbId == DbRunning && running.cfgRoot != null &&
      candidate.configDb && candidate.dbId == DbCandidate && candidate.cfgRoot != null &&
      candidate.cfgRoot != running.cfgRoot &&
      !oper.configDb && oper.dbId == DbOperational
    }

    /**
     * `cmgd_db_init`: aborts when called a second time (for this module or
     * for `cm`) or before `running_config` exists; otherwise RUNNING wraps
     * `running_config`, CANDIDATE gets a new empty configuration, OPERATIONAL
     * a new empty non-config tree, and the handles go into `cm`.
     */
    method Init(cm: Master, runningConfig: NbConfig?) returns (r: InitResult)
      requires running != candidate && candidate != oper && running != oper
      modifies this, running, candidate, oper, cm
      ensures r.Aborted? <==>
                old(dbCm) != null || old(cm.runningDb) != null || old(cm.candidateDb) != null ||
                old(cm.operDb) != null || runningConfig == null
      ensures r.Aborted? ==> unchanged(this, running, candidate, oper, cm)
      ensures r.Returned? ==>
                r.code == 0 && Initialised(cm) &&
                running.cfgRoot == runningConfig &&
                fresh(candidate.cfgRoot) && candidate.cfgRoot.dnode == NewTree(runningConfig.dnode.refused) &&
                oper.dnodeRoot == NewTree(runningConfig.dnode.refused)
    {
      if dbCm != null || cm.runningDb != null || cm.candidateDb != null || cm.operDb != null {
        return Aborted;
      }
      if runningConfig == null {
        return Aborted;
      }
      running.cfgRoot := runningConfig;
      running.configDb := true;
      running.dbId := DbRunning;

      candidate.cfgRoot := new NbConfig(NewTree(runningConfig.dnode.refused));
      candidate.configDb := true;
      candidate.dbId := DbCandidate;

      oper.dnodeRoot := NewTree(runningConfig.dnode.refused);
      oper.configDb := false;
      oper.dbId := DbOperational;

      cm.runningDb := running;
      cm.candidateDb := candidate;
      cm.operDb := oper;
      dbCm := cm;
      return Returned(0);
    }
  }

  /** `cmgd_db_get_hndl_by_id`: one of the three handles of `cm`, or null for any other id. */
  function GetHndlById(cm: Master, id: nat): (h: DbCtxt?)
    reads cm
    ensures id !in {DbCandidate, DbRunning, DbOperational} ==> h == null
    ensures id == DbCandidate ==> h == cm.candidateDb
    ensures id == DbRunning ==> h == cm.runningDb
    ensures id == DbOperational ==> h == cm.operDb
    ensures h != null ==> h in {cm.candidateDb, cm.runningDb, cm.operDb}
  {
    if id == DbCandidate then cm.candidateDb
    else if id == DbRunning then cm.runningDb
    else if id == DbOperational then cm.operDb
    else null
  }

  /** `cmgd_db_is_config`. */
  function IsConfig(h: DbCtxt?): (r: bool)
    reads h
    ensures r ==> h != null
    ensures h != null ==> r == h.configDb
  {
    h != null && h.configDb
  }

  /** `cmgd_db_get_nb_config`: the configuration of a config datastore, otherwise null. */
  function GetNbConfig(h: DbCtxt?): (c: NbConfig?)
    reads h
    ensures c != null ==> IsConfig(h) && c == h.cfgRoot
    ensures IsConfig(h) ==> c == h.cfgRoot
  {
    if h == null then null
    else if h.configDb then h.cfgRoot else null
  }

  datatype LockOp = ReadLock | WriteLock | Unlock

  /**
   * `cmgd_db_read_lock`, `cmgd_db_write_lock`, `cmgd_db_unlock`: -1 for a null
   * handle, otherwise what the pthread call returned (0 or an error number).
   */
  function Lock(op: LockOp, h: DbCtxt?, pthreadResult: nat): (r: int)
    ensures r < 0 <==> h == null
    ensures r < 0 ==> r == -1
    ensures h != null ==> r == pthreadResult
  {
    if h == null then -1 else pthreadResult
  }

  /** `cmgd_db_merge_dbs` and `cmgd_db_copy_dbs`, both stubs: -1 when either handle is null, else 0, and no datastore changes. */
  function TransferDbs(src: DbCtxt?, dst: DbCtxt?): (r: int)
    ensures r == -1 <==> src == null || dst == null
    ensures r == 0 <==> src != null && dst != null
  {
    if src == null || dst == null then -1 else 0
  }

  /** `cmgd_db_hndl_send_get_data_req`: a stub that only rejects a null handle. */
  function SendGetDataReq(h: DbCtxt?): (r: int)
    ensures r == -1 <==> h == null
    ensures r == 0 <==> h != null
  {
    if h == null then -1 else 0
  }

  /** After init, RUNNING and CANDIDATE are config datastores, OPERATIONAL is not, and every other id has no handle. */
  lemma HandlesAfterInit(m: DbModule, cm: Master, id: nat)
    requires m.Initialised(cm)
    ensures GetHndlById(cm, id) == null <==> id !in {DbRunning, DbCandidate, DbOperational}
    ensures IsConfig(GetHndlById(cm, id)) <==> id == DbRunning || id == DbCandidate
    ensures GetHndlById(cm, id) != null ==> GetHndlById(cm, id).dbId == id
    ensures GetNbConfig(GetHndlById(cm, id)) != null <==> id == DbRunning || id == DbCandidate
    ensures id == DbRunning ==> GetNbConfig(GetHndlById(cm, id)) != GetNbConfig(GetHndlById(cm, DbCandidate))
  {
  }

  // ---------------------------------------------------------------------
  // The batched walk

  /** The base xpath after the walk appended its wildcard and removed it again. */
  function Restored(base: Option<string>): Option<string>
  {
    match base
    case None => None
    case Some(p) => Some(RemoveWildcard(AppendWildcard(p)))
  }

  /** The contents of the three output arrays, a NULL array holding nothing. */
  datatype Slots = Slots(d: seq<Path>, x: seq<Option<Path>>, n: seq<nat>)

  /**
   * The caller's output arrays of one walk: `dnodes` (which the walk
   * dereferences, so it is never NULL here), `xpaths` and `nbnodes`
   * (either may be NULL).
   */
  class WalkArrays {
    const dnodes: array<Path>
    const xpaths: array?<Option<Path>>
    const nbnodes: array?<nat>

    constructor (d: array<Path>, x: array?<Option<Path>>, n: array?<nat>)
      ensures dnodes == d && xpaths == x && nbnodes == n
    {
      dnodes, xpaths, nbnodes := d, x, n;
    }

    /** The slots every passed array has. */
    function Room(): (r: nat)
      ensures r <= dnodes.Length
      ensures xpaths != null ==> r <= xpaths.Length
      ensures nbnodes != null ==> r <= nbnodes.Length
    {
      var a := dnodes.Length;
      var b := if xpaths != null && xpaths.Length < a then xpaths.Length else a;
      if nbnodes != null && nbnodes.Length < b then nbnodes.Length else b
    }

    function View(): (s: Slots)
      reads dnodes, xpaths, nbnodes
      ensures |s.d| == dnodes.Length
      ensures |s.x| == if xpaths == null then 0 else xpaths.Length
      ensures |s.n| == if nbnodes == null then 0 else nbnodes.Length
    {
      Slots(dnodes[..], if xpaths == null then [] else xpaths[..], if nbnodes == null then [] else nbnodes[..])
    }

    /** Stores match `m` in slot `k`: the recording step of the walk's loop, before `iter_fn` is called. */
    method Record(t: Tree, m: Path, k: nat) returns (xpath: Option<Path>)
      requires k < Room()
      modifies dnodes, xpaths, nbnodes
      ensures View() == Put(old(View()), k, m, Schema(t, m))
      ensures xpath == if xpaths != null then Some(m) else None
    {
      dnodes[k] := m;
      if nbnodes != null {
        nbnodes[k] := Schema(t, m);
      }
      xpath := None;
      if xpaths != null {
        xpaths[k] := Some(m);
        xpath := Some(m);
      }
    }
  }

  /** Slot `k` of each passed array holding the match, its path and its northbound node; a NULL array (empty in the view) is not written. */
  function Put(s: Slots, k: nat, m: Path, nb: nat): (r: Slots)
  {
    Slots(if k < |s.d| then s.d[k := m] else s.d,
          if k < |s.x| then s.x[k := Some(m)] else s.x,
          if k < |s.n| then s.n[k := nb] else s.n)
  }

  /** What the caller must guarantee: the nodes the walk will record fit in its arrays from `off` on. */
  predicate Fits(t: Tree, base: Option<string>, budget: int, childs: bool, keepPaths: bool, off: nat, room: nat)
    requires WF(t)
  {
    Walk(t, base, budget, childs, keepPaths).Walked? ==> off + |Walk(t, base, budget, childs, keepPaths).found| <= room
  }

  /** The arrays after the walk recorded `found` from `off` on, one match per slot. */
  function Fill(t: Tree, s: Slots, off: nat, found: seq<Path>): (r: Slots)
    ensures |r.d| == |s.d| && |r.x| == |s.x| && |r.n| == |s.n|
    decreases |found|
  {
    if found == [] then s else Fill(t, Put(s, off, found[0], Schema(t, found[0])), off + 1, found[1..])
  }

  /**
   * What a fill means: slot `k` of each passed array holds the recorded match
   * `found[k - off]` (its path, its xpath, its northbound node) when `k` lies
   * from `off` on within `found`, and its earlier content everywhere else.
   */
  lemma {:induction false} FillAt(t: Tree, s: Slots, off: nat, found: seq<Path>, k: nat)
    ensures var r := Fill(t, s, off, found);
            var inside := off <= k < off + |found|;
            (k < |s.d| ==> r.d[k] == if inside then found[k - off] else s.d[k]) &&
            (k < |s.x| ==> r.x[k] == if inside then Some(found[k - off]) else s.x[k]) &&
            (k < |s.n| ==> r.n[k] == if inside then Schema(t, found[k - off]) else s.n[k])
    decreases |found|
  {
    if found != [] {
      FillAt(t, Put(s, off, found[0], Schema(t, found[0])), off + 1, found[1..], k);
    }
  }

  lemma FillNothing(t: Tree, s: Slots, off: nat)
    ensures Fill(t, s, off, []) == s
  {
  }

  /** Two fills one after the other, the second from `mid` where the first ends, are one fill of both. */
  lemma {:induction false} FillTrans(t: Tree, s: Slots, off: nat, v: seq<Path>, w: seq<Path>, mid: nat)
    requires mid == off + |v|
    ensures Fill(t, Fill(t, s, off, v), mid, w) == Fill(t, s, off, v + w)
    decreases |v|
  {
    if v == [] {
      assert v + w == w;
    } else {
      assert (v + w)[0] == v[0] && (v + w)[1..] == v[1..] + w;
      FillTrans(t, Put(s, off, v[0], Schema(t, v[0])), off + 1, v[1..], w, mid);
    }
  }

  /** Recording one more match at `mid`, where the fill ends, extends the fill by it. */
  lemma FillPush(t: Tree, s: Slots, off: nat, found: seq<Path>, m: Path, mid: nat)
    requires mid == off + |found|
    ensures Put(Fill(t, s, off, found), mid, m, Schema(t, m)) == Fill(t, s, off, found + [m])
  {
    FillTrans(t, s, off, found, [m], mid);
    assert [m][1..] == [];
  }

  /** The loop's record invariant carried over one pass of `WalkMatch`. */
  lemma LoopStep(t: Tree, ms: seq<Path>, indx: nat, next: nat, left: int, leftAfter: int, childs: bool, keepPaths: bool,
                 total: seq<Path>, found: seq<Path>, addedPaths: seq<Path>, stop: bool)
    requires WF(t) && indx < |ms| && next == indx + 1
    requires total == found + WalkSet(t, ms, indx, left, childs, keepPaths)
    requires stop ==> WalkSet(t, ms, indx, left, childs, keepPaths) == addedPaths
    requires !stop ==> WalkSet(t, ms, indx, left, childs, keepPaths) ==
                       addedPaths + WalkSet(t, ms, next, leftAfter, childs, keepPaths)
    ensures if stop then total == found + addedPaths
            else total == found + addedPaths + WalkSet(t, ms, next, leftAfter, childs, keepPaths)
  {
    if !stop {
      var rest := WalkSet(t, ms, next, leftAfter, childs, keepPaths);
      assert found + (addedPaths + rest) == found + addedPaths + rest;
    }
  }

  /**
   * `cmgd_walk_db_nodes` writing at offset `off` of the caller's arrays
   * (the recursive calls get `&dnodes[*num_nodes]`). `numNodes` is the
   * `int *num_nodes` argument, `hasIter` whether an `iter_fn` was given;
   * `visits` are the calls made to it, and `baseOut` the base buffer after
   * the wildcard was appended and removed again. The recorded nodes must fit
   * the arrays: the source does not check.
   */
  method WalkDbNodes(t: Tree, base: Option<string>, hasIter: bool,
                     a: WalkArrays, off: nat, numNodes: Option<int>, childs: bool)
    returns (ret: int, numOut: Option<int>, baseOut: Option<string>, visits: seq<Visit>)
    requires WF(t)
    requires numNodes.Some? ==> Fits(t, base, numNodes.value, childs, a.xpaths != null, off, a.Room())
    modifies a.dnodes, a.xpaths, a.nbnodes
    decreases Bound(t, Query(base)), 4
    ensures numNodes.None? ==> ret == -1 && numOut.None? && baseOut == base && visits == []
    ensures numNodes.Some? && numNodes.value == 0 ==> ret == 0 && numOut == numNodes && baseOut == base && visits == []
    ensures numNodes.Some? && numNodes.value != 0 ==> baseOut == Restored(base)
    ensures numNodes.None? || Walk(t, base, numNodes.value, childs, a.xpaths != null).WalkFailed? ==>
              a.View() == old(a.View())
    ensures numNodes.Some? && Walk(t, base, numNodes.value, childs, a.xpaths != null).WalkFailed? ==>
              ret == -1 && numOut == numNodes && visits == []
    ensures numNodes.Some? && Walk(t, base, numNodes.value, childs, a.xpaths != null).Walked? ==>
              var found := Walk(t, base, numNodes.value, childs, a.xpaths != null).found;
              ret == 0 && numOut == Some(|found|) &&
              a.View() == Fill(t, old(a.View()), off, found) &&
              visits == (if hasIter then Visits(t, found, a.xpaths != null, a.nbnodes != null) else [])
  {
    ghost var kp, kn := a.xpaths != null, a.nbnodes != null;
    ghost var v0 := a.View();
    if numNodes.None? {
      return -1, None, base, [];
    }
    if numNodes.value == 0 {
      FillNothing(t, v0, off);
      return 0, numNodes, base, [];
    }
    baseOut := Restored(base);
    var lySet := FindXpath(t, Query(base));
    if lySet.None? {
      return -1, numNodes, baseOut, [];
    }
    var count;
    ghost var found;
    count, visits, found := WalkLoop(t, lySet.value, numNodes.value, hasIter, a, off, childs);
    ret := 0;
    numOut := Some(count);
  }

  /**
   * The loop of `cmgd_walk_db_nodes` over the matching set `ms`, starting
   * with `budget` as `num_left` and writing from `off` on; `count` is the
   * final `*num_nodes`.
   */
  method WalkLoop(t: Tree, ms: seq<Path>, budget: int, hasIter: bool,
                  a: WalkArrays, off: nat, childs: bool)
    returns (count: nat, visits: seq<Visit>, ghost found: seq<Path>)
    requires WF(t)
    requires forall m :: m in ms ==> m in t.nodes
    requires off + |WalkSet(t, ms, 0, budget, childs, a.xpaths != null)| <= a.Room()
    modifies a.dnodes, a.xpaths, a.nbnodes
    decreases HeightOf(t, ms), 3
    ensures found == WalkSet(t, ms, 0, budget, childs, a.xpaths != null) && count == |found|
    ensures a.View() == Fill(t, old(a.View()), off, found)
    ensures visits == if hasIter then Visits(t, found, a.xpaths != null, a.nbnodes != null) else []
  {
    ghost var kp, kn := a.xpaths != null, a.nbnodes != null;
    ghost var v0 := a.View();
    ghost var total := WalkSet(t, ms, 0, budget, childs, kp);
    var left := budget;
    count := 0;
    visits := [];
    found := [];
    FillNothing(t, v0, off);
    var indx := 0;
    var stopped := false;
    while indx < |ms| && !stopped
      invariant indx <= |ms| && count == |found|
      invariant if stopped then total == found else total == found + WalkSet(t, ms, indx, left, childs, kp)
      invariant a.View() == Fill(t, v0, off, found)
      invariant visits == if hasIter then Visits(t, found, kp, kn) else []
    {
      var next := indx + 1;
      var stop, added, leftAfter, matchVisits, addedPaths :=
        WalkPass(t, ms, indx, next, left, hasIter, a, off, count, childs, v0, found, total);
      if hasIter {
        VisitsAppend(t, found, addedPaths, kp, kn);
      }
      visits := visits + matchVisits;
      count := count + added;
      left := leftAfter;
      found := found + addedPaths;
      stopped := stop;
      indx := next;
    }
    assert total == found + [];
  }

  /**
   * One pass of the walk's loop at set index `indx`, after the loop has
   * recorded `found` (of the `total` it will record) from `off` on: the match
   * is handled at `off + count`, and the loop's three invariants carry over.
   */
  method WalkPass(t: Tree, ms: seq<Path>, indx: nat, ghost next: nat, left: int, hasIter: bool,
                  a: WalkArrays, off: nat, count: nat, childs: bool,
                  ghost v0: Slots, ghost found: seq<Path>, ghost total: seq<Path>)
    returns (stop: bool, added: nat, leftAfter: int, visits: seq<Visit>, ghost addedPaths: seq<Path>)
    requires WF(t)
    requires indx < |ms| && ms[indx] in t.nodes && next == indx + 1
    requires count == |found| && total == found + WalkSet(t, ms, indx, left, childs, a.xpaths != null)
    requires off + |total| <= a.Room()
    requires a.View() == Fill(t, v0, off, found)
    modifies a.dnodes, a.xpaths, a.nbnodes
    decreases HeightOf(t, ms), 2
    ensures added == |addedPaths|
    ensures if stop then total == found + addedPaths
            else total == found + addedPaths + WalkSet(t, ms, next, leftAfter, childs, a.xpaths != null)
    ensures a.View() == Fill(t, v0, off, found + addedPaths)
    ensures visits == if hasIter then Visits(t, addedPaths, a.xpaths != null, a.nbnodes != null) else []
  {
    ghost var kp := a.xpaths != null;
    var at := off + count;
    ghost var before := a.View();
    stop, added, leftAfter, visits, addedPaths := WalkMatch(t, ms, indx, next, left, hasIter, a, at, childs);
    assert a.View() == Fill(t, before, at, addedPaths);
    FillTrans(t, v0, off, found, addedPaths, at);
    LoopStep(t, ms, indx, next, left, leftAfter, childs, kp, total, found, addedPaths, stop);
  }

  /**
   * One pass of the walk's loop, for the match at set index `indx`: record it
   * at `off` (the current `*num_nodes`), call `iter_fn`, and walk into its
   * children when asked and the set holds more than one match. `stop` is the
   * `break` taken when that recursive call fails.
   */
  method WalkMatch(t: Tree, ms: seq<Path>, indx: nat, ghost next: nat, left: int, hasIter: bool,
                   a: WalkArrays, off: nat, childs: bool)
    returns (stop: bool, added: nat, leftAfter: int, visits: seq<Visit>, ghost addedPaths: seq<Path>)
    requires WF(t)
    requires indx < |ms| && ms[indx] in t.nodes && next == indx + 1
    requires off + |WalkSet(t, ms, indx, left, childs, a.xpaths != null)| <= a.Room()
    modifies a.dnodes, a.xpaths, a.nbnodes
    decreases HeightOf(t, ms), 1
    ensures added == |addedPaths|
    ensures stop ==> WalkSet(t, ms, indx, left, childs, a.xpaths != null) == addedPaths
    ensures !stop ==> WalkSet(t, ms, indx, left, childs, a.xpaths != null) ==
                      addedPaths + WalkSet(t, ms, next, leftAfter, childs, a.xpaths != null)
    ensures a.View() == Fill(t, old(a.View()), off, addedPaths)
    ensures visits == if hasIter then Visits(t, addedPaths, a.xpaths != null, a.nbnodes != null) else []
  {
    ghost var kp, kn := a.xpaths != null, a.nbnodes != null;
    ghost var v0 := a.View();
    var m := ms[indx];
    FillNothing(t, v0, off);
    FillPush(t, v0, off, [], m, off);
    var xpath := a.Record(t, m, off);
    assert [] + [m] == [m];
    visits := [];
    if hasIter {
      VisitsOne(t, m, kp, kn);
      visits := [Visit(xpath, m, if a.nbnodes != null then Some(Schema(t, m)) else None)];
    }
    if !(childs && |ms| > 1) {
      leftAfter := left - 1;
      WalkSetRecordsOnly(t, ms, indx, next, left, childs, kp, leftAfter);
      return false, 1, leftAfter, visits, [m];
    }
    var subVisits;
    ghost var sub;
    stop, added, leftAfter, subVisits, sub := WalkChildren(t, ms, indx, next, left, hasIter, a, off, childs, xpath);
    FillTrans(t, v0, off, [m], sub, off + 1);
    if hasIter {
      VisitsAppend(t, [m], sub, kp, kn);
    }
    added := added + 1;
    addedPaths := [m] + sub;
    visits := visits + subVisits;
  }

  /**
   * The recursive call of the loop pass for match `ms[indx]`, already
   * recorded at `off`, whose xpath (as the recursive call receives it) is
   * `xpath`; afterwards the recorded xpath is the base buffer the call
   * restored. `sub` is what the call recorded, from `off + 1` on.
   */
  method WalkChildren(t: Tree, ms: seq<Path>, indx: nat, ghost next: nat, left: int, hasIter: bool,
                      a: WalkArrays, off: nat, childs: bool, xpath: Option<Path>)
    returns (stop: bool, added: nat, leftAfter: int, visits: seq<Visit>, ghost sub: seq<Path>)
    requires WF(t)
    requires indx < |ms| && ms[indx] in t.nodes && next == indx + 1
    requires childs && |ms| > 1 && xpath == ChildBase(ms[indx], a.xpaths != null)
    requires off + |WalkSet(t, ms, indx, left, childs, a.xpaths != null)| <= a.Room()
    modifies a.dnodes, a.xpaths, a.nbnodes
    decreases HeightOf(t, ms), 0
    ensures added == |sub|
    ensures stop ==> WalkSet(t, ms, indx, left, childs, a.xpaths != null) == [ms[indx]] + sub
    ensures !stop ==> WalkSet(t, ms, indx, left, childs, a.xpaths != null) ==
                      [ms[indx]] + sub + WalkSet(t, ms, next, leftAfter, childs, a.xpaths != null)
    ensures off + 1 + |sub| <= a.Room()
    ensures a.View() == Fill(t, old(a.View()), off + 1, sub)
    ensures visits == if hasIter then Visits(t, sub, a.xpaths != null, a.nbnodes != null) else []
  {
    ghost var kp, kn := a.xpaths != null, a.nbnodes != null;
    var m := ms[indx];
    DescentDecreases(t, ms, m, xpath);
    ChildWalkIsWalk(t, m, left - 1, childs, kp);
    ghost var w := ChildWalk(t, m, left - 1, childs, kp);
    assert Walk(t, xpath, left - 1, childs, kp) == w;
    ghost var v1 := a.View();
    var r, numFound, xpathBack;
    r, numFound, xpathBack, visits := WalkDbNodes(t, xpath, hasIter, a, off + 1, Some(left - 1), childs);
    if r != 0 {
      WalkSetStops(t, ms, indx, left, childs, kp);
      FillNothing(t, v1, off + 1);
      return true, 0, left - 1, [], [];
    }
    assert w.Walked?;
    sub := w.found;
    leftAfter := left - 1 - numFound.value;
    WalkSetDescends(t, ms, indx, next, left, childs, kp, sub, leftAfter);
    stop, added := false, numFound.value;
  }

  // ---------------------------------------------------------------------
  // Lookup, delete and iteration

  /** The xpath `cmgd_db_lookup_data_nodes` walks: a leading "./" is skipped. */
  function StripCurrent(xpath: string): (r: string)
    ensures |xpath| >= 2 && xpath[0] == '.' && xpath[1] == '/' ==> xpath == "./" + r
    ensures !(|xpath| >= 2 && xpath[0] == '.' && xpath[1] == '/') ==> r == xpath
  {
    if |xpath| >= 2 && xpath[0] == '.' && xpath[1] == '/' then
      assert xpath == xpath[..2] + xpath[2..];
      xpath[2..]
    else xpath
  }

  /**
   * `cmgd_db_lookup_data_nodes`: -1 for a null handle or a NULL `num_nodes`;
   * otherwise the walk, without `iter_fn`, from the xpath copied into a
   * buffer of CMGD_MAX_XPATH_LEN characters (a longer xpath would be left
   * unterminated by `strncpy`, so it must be shorter), writing from slot 0.
   */
  method LookupDataNodes(h: DbCtxt?, xpath: string, a: WalkArrays, numNodes: Option<int>, childs: bool)
    returns (ret: int, numOut: Option<int>)
    requires h != null ==> h.Valid() && WF(h.Data())
    requires |StripCurrent(xpath)| < MaxXpathLen
    requires h != null && numNodes.Some? ==>
               Fits(h.Data(), Some(StripCurrent(xpath)), numNodes.value, childs, a.xpaths != null, 0, a.Room())
    modifies a.dnodes, a.xpaths, a.nbnodes
    ensures h == null || numNodes.None? ==> ret == -1 && numOut == numNodes && a.View() == old(a.View())
    ensures h != null && numNodes.Some? && numNodes.value == 0 ==>
              ret == 0 && numOut == numNodes && a.View() == old(a.View())
    ensures h != null && numNodes.Some? && numNodes.value != 0 ==>
              var w := Walk(h.Data(), Some(StripCurrent(xpath)), numNodes.value, childs, a.xpaths != null);
              (ret == -1 <==> AppendWildcard(StripCurrent(xpath)) in h.Data().refused) &&
              (w.WalkFailed? ==> ret == -1 && numOut == numNodes && a.View() == old(a.View())) &&
              (w.Walked? ==> ret == 0 && numOut == Some(|w.found|) && a.View() == Fill(h.Data(), old(a.View()), 0, w.found))
  {
    if h == null || numNodes.None? {
      return -1, numNodes;
    }
    var baseXpath := StripCurrent(xpath);
    var t := h.Data();
    if numNodes.value != 0 {
      FailsIffNoBase(t, Some(baseXpath), numNodes.value, childs, a.xpaths != null);
    }
    var baseBack, visits;
    ghost var v0 := a.View();
    ret, numOut, baseBack, visits := WalkDbNodes(t, Some(baseXpath), false, a, 0, numNodes, childs);
    if numNodes.value == 0 {
      FillNothing(t, v0, 0);
    }
  }

  /** What `cmgd_db_delete_data_nodes` leaves of a tree holding `xpath`: the dependant's subtree freed if present, then `xpath`'s. */
  function Deleted(t: Tree, xpath: Path, dep: Option<Path>): Tree
  {
    var t1 := if dep.Some? && dep.value in t.nodes then FreeTree(t, dep.value) else t;
    FreeTree(t1, xpath)
  }

  /**
   * A delete keeps the tree well formed and removes the node, its subtree and
   * the dependant's subtree, and exactly those: every other node survives with
   * its schema node.
   */
  lemma DeletedSound(t: Tree, xpath: Path, dep: Option<Path>)
    requires WF(t)
    ensures var r := Deleted(t, xpath, dep);
            WF(r) && xpath !in r.nodes && (dep.Some? ==> dep.value !in r.nodes) &&
            (forall k :: k in r.nodes <==>
               k in t.nodes && !Under(k, xpath) && !(dep.Some? && dep.value in t.nodes && Under(k, dep.value))) &&
            (forall k :: k in r.nodes ==> r.nodes[k].schema == t.nodes[k].schema)
  {
    var t1 := if dep.Some? && dep.value in t.nodes then FreeTree(t, dep.value) else t;
    if dep.Some? && dep.value in t.nodes {
      FreeTreeSound(t, dep.value);
    }
    FreeTreeSound(t1, xpath);
  }

  /**
   * `cmgd_db_delete_data_nodes`: -1 for a null handle, NB_ERR_NOT_FOUND with
   * nothing changed when `xpath` is not in the datastore's tree, otherwise
   * the dependant's subtree (`dep` is what `get_dependant_xpath` of the node's
   * northbound node wrote, None without that callback) is freed if it exists,
   * then the node's, and 0 is returned. The dependant's subtree must not hold
   * the node itself, which the second free would then free twice.
   */
  method DeleteDataNodes(h: DbCtxt?, xpath: Path, dep: Option<Path>) returns (r: int)
    requires h != null ==> h.Valid() && WF(h.Data())
    requires h != null && xpath in h.Data().nodes && dep.Some? && dep.value in h.Data().nodes ==>
               !Under(xpath, dep.value)
    modifies h, if h != null then {h.cfgRoot} else {}
    ensures h == null ==> r == -1
    ensures h != null ==> h.Valid() && h.dbId == old(h.dbId) && h.configDb == old(h.configDb) && h.cfgRoot == old(h.cfgRoot)
    ensures h != null && xpath !in old(h.Data()).nodes ==> r == NbErrNotFound && h.Data() == old(h.Data())
    ensures h != null && xpath in old(h.Data()).nodes ==> r == 0 && h.Data() == Deleted(old(h.Data()), xpath, dep)
  {
    if h == null {
      return -1;
    }
    var t := h.Data();
    if xpath !in t.nodes {
      return NbErrNotFound;
    }
    if dep.Some? && dep.value in t.nodes {
      t := FreeTree(t, dep.value);
    }
    t := FreeTree(t, xpath);
    h.SetData(t);
    r := 0;
  }

  /**
   * `cmgd_db_iter_data`: -1 for a null handle; otherwise the walk with
   * children from `base` into three zeroed arrays of
   * CMGD_MAX_NUM_DBNODES_PER_BATCH slots, with the same number as budget,
   * passing each recorded node to `iter_fn`; the walk's result is returned.
   * The recorded nodes must fit the arrays: the source does not check.
   */
  method IterData(h: DbCtxt?, base: Option<string>, hasIter: bool)
    returns (ret: int, baseOut: Option<string>, visits: seq<Visit>)
    requires h != null ==> h.Valid() && WF(h.Data()) &&
                           Fits(h.Data(), base, MaxNumDbNodesPerBatch, true, true, 0, MaxNumDbNodesPerBatch)
    ensures h == null ==> ret == -1 && baseOut == base && visits == []
    ensures h != null ==> baseOut == Restored(base)
    ensures h != null ==>
              var w := Walk(h.Data(), base, MaxNumDbNodesPerBatch, true, true);
              (ret == -1 <==> w.WalkFailed?) && (ret == 0 <==> w.Walked?) &&
              visits == if w.Walked? && hasIter then Visits(h.Data(), w.found, true, true) else []
  {
    if h == null {
      return -1, base, [];
    }
    var xpaths := new Option<Path>[MaxNumDbNodesPerBatch](_ => None);
    var dnodes := new Path[MaxNumDbNodesPerBatch](_ => "");
    var nbnodes := new nat[MaxNumDbNodesPerBatch](_ => 0);
    var a := new WalkArrays(dnodes, xpaths, nbnodes);
    var t := h.Data();
    var numOut;
    ret, numOut, baseOut, visits := WalkDbNodes(t, base, hasIter, a, 0, Some(MaxNumDbNodesPerBatch), true);
  }
}
