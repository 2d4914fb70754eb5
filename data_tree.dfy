/**
 * An abstract libyang data tree, standing in for the `struct lyd_node`
 * trees that cmgd/cmgd_db.c walks and frees.
 *
 * A tree is a finite map from a node's data path to the node. Each node
 * lists its children in document order, carries a height (strictly larger
 * than its children's, so walks terminate) and the id of its northbound
 * schema node (`dnode->schema->priv`). The paths, children lists and
 * schema ids are what libyang would report; how it computes them is not
 * modelled. A tree also carries the xpaths its libyang context refuses to
 * evaluate (a malformed expression, an unknown schema node): which ones
 * they are is libyang's business, so any finite set of them can be given.
 */
module DataTree {
  import opened Optional
  import opened XpathWildcard

  type Path = string

  datatype Node = Node(kids: seq<Path>, height: nat, schema: nat)

  datatype Tree = Tree(nodes: map<Path, Node>, refused: set<string>)

  /** A zero-initialised tree: no data nodes, and no xpath refused. */
  const EmptyTree: Tree := Tree(map[], {})

  /** The tree `yang_dnode_new` creates in a libyang context that refuses `refused`: no data nodes. */
  function NewTree(refused: set<string>): (t: Tree)
    ensures t.nodes == map[] && t.refused == refused
  {
    Tree(map[], refused)
  }

  /** `c` is a path that lies below `p`: it extends `p` by a slash and at least one more character. */
  predicate ChildPath(c: Path, p: Path)
  {
    |c| > |p| + 1 && c[..|p| + 1] == p + "/"
  }

  /** `k` is `p` or lies below it: the nodes `lyd_free_tree(p)` frees. */
  predicate Under(k: Path, p: Path)
  {
    k == p || ChildPath(k, p)
  }

  /**
   * Every node path is one the wildcard helpers treat as a node, and its
   * children query is one libyang evaluates; every child is a node of the
   * tree, below its parent and of smaller height.
   */
  predicate WF(t: Tree)
  {
    forall p :: p in t.nodes ==>
      PlainPath(p) && AppendWildcard(p) !in t.refused &&
      forall c :: c in t.nodes[p].kids ==>
        c in t.nodes && t.nodes[c].height < t.nodes[p].height && ChildPath(c, p)
  }

  /** An xpath that asks for every child of the path before its last two characters. */
  predicate IsWildcard(q: string)
  {
    |q| > 2 && q[|q| - 2] == '/' && q[|q| - 1] == '*'
  }

  /**
   * The `lyd_find_xpath` oracle: None for a failed evaluation (a NULL or a
   * refused xpath), otherwise the matching set in order. A wildcard query (`p` then slash-star) yields the children of `p`
   * (none when `p` is absent); any other path yields that node if present.
   */
  function FindXpath(t: Tree, q: Option<string>): (r: Option<seq<Path>>)
    ensures WF(t) && r.Some? ==> forall m :: m in r.value ==> m in t.nodes
    ensures r.None? <==> q.None? || q.value in t.refused
  {
    match q
    case None => None
    case Some(s) =>
      if s in t.refused then None
      else if IsWildcard(s) then
        var parent := s[..|s| - 2];
        if parent in t.nodes then Some(t.nodes[parent].kids) else Some([])
      else if s in t.nodes then Some([s]) else Some([])
  }

  /** The query the walk evaluates for a base xpath: the base with its trailing wildcard appended. */
  function Query(base: Option<string>): Option<string>
  {
    match base
    case None => None
    case Some(p) => Some(AppendWildcard(p))
  }

  /** The schema id (`nb_node`) of a node; 0, no schema node, for a path not in the tree. */
  function Schema(t: Tree, p: Path): nat
  {
    if p in t.nodes then t.nodes[p].schema else 0
  }

  /** The children of a node; none for a path not in the tree. */
  function Kids(t: Tree, p: Path): seq<Path>
  {
    if p in t.nodes then t.nodes[p].kids else []
  }

  /** A node's height plus one; 1 for a path not in the tree (which has no children). */
  function Rank(t: Tree, p: Path): nat
  {
    if p in t.nodes then t.nodes[p].height + 1 else 1
  }

  /** The largest rank among `ms`; 0 for an empty set. */
  function HeightOf(t: Tree, ms: seq<Path>): nat
  {
    if ms == [] then 0
    else
      var h := Rank(t, ms[0]);
      var rest := HeightOf(t, ms[1..]);
      if h < rest then rest else h
  }

  /** The termination measure of a walk from a query: the height of its matches. */
  function Bound(t: Tree, q: Option<string>): nat
  {
    match FindXpath(t, q)
    case None => 0
    case Some(ms) => HeightOf(t, ms)
  }

  lemma {:induction false} HeightOfAbove(t: Tree, ms: seq<Path>, m: Path)
    requires m in ms
    ensures Rank(t, m) <= HeightOf(t, ms)
  {
    if ms[0] != m {
      HeightOfAbove(t, ms[1..], m);
    }
  }

  lemma {:induction false} HeightOfBelow(t: Tree, ms: seq<Path>, h: nat)
    requires forall m :: m in ms ==> m in t.nodes && t.nodes[m].height < h
    ensures HeightOf(t, ms) <= h
  {
    if ms != [] {
      HeightOfBelow(t, ms[1..], h);
    }
  }

  /** In a well-formed tree a node's children all rank below it. */
  lemma KidsBelow(t: Tree, p: Path)
    requires WF(t)
    ensures HeightOf(t, Kids(t, p)) < Rank(t, p)
  {
    if p in t.nodes {
      HeightOfBelow(t, t.nodes[p].kids, t.nodes[p].height);
    }
  }

  /** A plain base path is queried for exactly its children, unless libyang refuses the query. */
  lemma FindChildren(t: Tree, b: Path)
    requires PlainPath(b)
    ensures AppendWildcard(b) in t.refused ==> FindXpath(t, Query(Some(b))).None?
    ensures AppendWildcard(b) !in t.refused ==> FindXpath(t, Query(Some(b))) == Some(Kids(t, b))
  {
    RoundTrip(b);
    var q := b + "/*";
    assert q[..|q| - 2] == b;
  }

  /** Walking into a match's children (or into a NULL base) measures strictly less than the set the match came from. */
  lemma DescentDecreases(t: Tree, ms: seq<Path>, m: Path, b: Option<Path>)
    requires WF(t) && m in ms && m in t.nodes
    requires b == Some(m) || b.None?
    ensures Bound(t, Query(b)) < HeightOf(t, ms)
  {
    HeightOfAbove(t, ms, m);
    if b.Some? {
      FindChildren(t, m);
      KidsBelow(t, m);
    }
  }

  /** Below-ness is transitive along a child step. */
  lemma UnderStep(k: Path, c: Path, p: Path)
    requires ChildPath(c, k) && Under(k, p)
    ensures ChildPath(c, p)
  {
    if k != p {
      assert c[..|p| + 1] == c[..|k| + 1][..|p| + 1];
    }
  }

  /** Children lists with every child below `p` dropped. */
  function DropUnder(kids: seq<Path>, p: Path): (r: seq<Path>)
    ensures forall c :: c in r <==> c in kids && !Under(c, p)
  {
    if kids == [] then []
    else if Under(kids[0], p) then DropUnder(kids[1..], p)
    else [kids[0]] + DropUnder(kids[1..], p)
  }

  /** `lyd_free_tree`: `p` and every node below it are freed and unlinked from their parents. */
  function FreeTree(t: Tree, p: Path): (r: Tree)
  {
    Tree(map k | k in t.nodes && !Under(k, p) :: Node(DropUnder(t.nodes[k].kids, p), t.nodes[k].height, t.nodes[k].schema),
         t.refused)
  }

  /**
   * Freeing keeps the tree well formed, removes exactly `p`, its descendants
   * and nothing else, and keeps every surviving node's schema and height.
   */
  lemma FreeTreeSound(t: Tree, p: Path)
    requires WF(t)
    ensures WF(FreeTree(t, p))
    ensures p !in FreeTree(t, p).nodes
    ensures forall k :: k in t.nodes && !Under(k, p) ==>
              k in FreeTree(t, p).nodes && FreeTree(t, p).nodes[k].schema == t.nodes[k].schema
    ensures forall k :: k in FreeTree(t, p).nodes ==> k in t.nodes && !Under(k, p)
    ensures FreeTree(t, p).refused == t.refused
  {
  }

  /** Every node reachable from `p` through children lists is below `p`, so `FreeTree` frees the whole subtree. */
  lemma {:induction false} SubtreeIsUnder(t: Tree, p: Path, k: Path, c: Path)
    requires WF(t) && k in t.nodes && Under(k, p) && c in t.nodes[k].kids
    ensures Under(c, p) && c !in FreeTree(t, p).nodes
  {
    UnderStep(k, c, p);
  }
}
