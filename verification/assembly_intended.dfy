/** The forest postProcess evidently means to build: every node whose parent path
    is another document of the batch hangs under that document's node, whatever
    the order in which `rootbin`'s keys are visited.  The code as written (module
    Assembly) looks the parent up in `rootbin` while it is deleting from it, so a
    node whose parent was already moved stays a root; the lemmas at the end
    exhibit that and the self-parented empty path. */
module AssemblyIntended {
  import opened Strings
  import opened Seqs
  import opened Facets
  import opened Assembly
  import opened AssemblyProperties

  /** Node `k`'s parent path is another document of the batch. */
  predicate HasBatchParent(init: map<string, Node>, k: string)
    requires k in init
  {
    init[k].parent in init && init[k].parent != k
  }

  /** The nodes that belong under the node at path `p`. */
  function IntendedChildren(init: map<string, Node>, p: string): set<string> {
    set c | c in init && HasBatchParent(init, c) && init[c].parent == p
  }

  /** The nodes that belong at the top of the forest. */
  function IntendedRoots(init: map<string, Node>): set<string> {
    set k | k in init && !HasBatchParent(init, k)
  }

  /** postProcess with the parent lookup done against the whole batch rather than
      against the shrinking `rootbin`, and with no node its own parent.  Children
      and roots keep the key order, as in the original. */
  function PostProcessIntended(docs: seq<Doc>, facets: seq<FacetItem>, props: seq<string>): (f: Forest)
    requires WellFormedBatch(docs, facets, props)
    ensures f.nodes.Keys == DocPaths(docs)
  {
    var init := Initial(docs, facets);
    Forest(
      map p | p in init :: Linked(init[p], Keep(props, IntendedChildren(init, p))),
      Keep(props, IntendedRoots(init)))
  }

  /** A node of the intended forest: its children are the nodes whose parent path
      is its own, and it is lazy only if it started lazy and has none. */
  lemma IntendedNode(docs: seq<Doc>, facets: seq<FacetItem>, props: seq<string>, p: string)
    requires WellFormedBatch(docs, facets, props) && p in DocPaths(docs)
    ensures var f := PostProcessIntended(docs, facets, props);
      var init := Initial(docs, facets);
      f.nodes[p].children == Keep(props, IntendedChildren(init, p)) &&
      f.nodes[p].parent == ParentOf(p) &&
      (f.nodes[p].lazy <==> InitialLazy(CountBin(facets), p) && f.nodes[p].children == [])
  {
    InitialFacts(docs, facets, props);
    var i := RootBinFromDocs(docs, CountBin(facets), p);
  }

  lemma IntendedMembership(docs: seq<Doc>, facets: seq<FacetItem>, props: seq<string>, p: string, c: string)
    requires WellFormedBatch(docs, facets, props) && p in DocPaths(docs)
    ensures var f := PostProcessIntended(docs, facets, props);
      c in f.nodes[p].children <==>
        c in f.nodes && ParentOf(c) in f.nodes && ParentOf(c) != c && ParentOf(c) == p
  {
    InitialFacts(docs, facets, props);
    IntendedNode(docs, facets, props, p);
  }

  lemma IntendedRootMembership(docs: seq<Doc>, facets: seq<FacetItem>, props: seq<string>, k: string)
    requires WellFormedBatch(docs, facets, props)
    ensures var f := PostProcessIntended(docs, facets, props);
      k in f.roots <==> k in f.nodes && (ParentOf(k) !in f.nodes || ParentOf(k) == k)
  {
    InitialFacts(docs, facets, props);
  }

  /** The intended forest: a node is a root exactly when its parent path is not
      another document of the batch; every other node is a child of its parent
      path's node, and of no other; a child's path is strictly longer than its
      parent's, so the links have no cycle. */
  lemma IntendedForest(docs: seq<Doc>, facets: seq<FacetItem>, props: seq<string>)
    requires WellFormedBatch(docs, facets, props)
    ensures var f := PostProcessIntended(docs, facets, props);
      forall k :: k in f.nodes ==> (k in f.roots <==> ParentOf(k) !in f.nodes || ParentOf(k) == k)
    ensures var f := PostProcessIntended(docs, facets, props);
      forall k :: k in f.nodes && k !in f.roots ==> k in f.nodes[ParentOf(k)].children
    ensures var f := PostProcessIntended(docs, facets, props);
      forall p, c :: p in f.nodes && c in f.nodes[p].children ==>
        c in f.nodes && c !in f.roots && ParentOf(c) == p && |p| < |c|
  {
    var f := PostProcessIntended(docs, facets, props);
    forall k | k in f.nodes
      ensures k in f.roots <==> ParentOf(k) !in f.nodes || ParentOf(k) == k
      ensures k !in f.roots ==> k in f.nodes[ParentOf(k)].children
    {
      IntendedRootMembership(docs, facets, props, k);
      if k !in f.roots {
        IntendedMembership(docs, facets, props, ParentOf(k), k);
      }
    }
    forall p, c | p in f.nodes && c in f.nodes[p].children
      ensures c in f.nodes && c !in f.roots && ParentOf(c) == p && |p| < |c|
    {
      IntendedMembership(docs, facets, props, p, c);
      IntendedRootMembership(docs, facets, props, c);
      ParentShorter(c);
    }
  }

  /** Each children list of the intended forest is free of repetitions, and the
      lazy rule is the original one: lazy exactly when the facet count made the
      node lazy and it received no child. */
  lemma IntendedChildrenAndLazy(docs: seq<Doc>, facets: seq<FacetItem>, props: seq<string>)
    requires WellFormedBatch(docs, facets, props)
    ensures var f := PostProcessIntended(docs, facets, props);
      forall p :: p in f.nodes ==> Distinct(f.nodes[p].children)
    ensures var f := PostProcessIntended(docs, facets, props);
      forall p :: p in f.nodes ==>
        (f.nodes[p].lazy <==> InitialLazy(CountBin(facets), p) && f.nodes[p].children == [])
  {
    var init := Initial(docs, facets);
    var f := PostProcessIntended(docs, facets, props);
    forall p | p in f.nodes
      ensures f.nodes[p].lazy <==> InitialLazy(CountBin(facets), p) && f.nodes[p].children == []
      ensures Distinct(f.nodes[p].children)
    {
      IntendedNode(docs, facets, props, p);
      KeepDistinct(props, IntendedChildren(init, p));
    }
  }

  /** The key order visits every child before its parent. */
  predicate ChildFirst(props: seq<string>) {
    forall a, b :: 0 <= a < |props| && 0 <= b < |props| && ParentOf(props[b]) == props[a] ==> b < a
  }

  /** After the linking pass, under a child-first order, exactly the nodes without
      a parent in the batch are still in `rootbin`. */
  lemma ChildFirstBin(docs: seq<Doc>, facets: seq<FacetItem>, props: seq<string>, j: nat)
    requires WellFormedBatch(docs, facets, props) && ChildFirst(props) && j < |props|
    ensures var init := Initial(docs, facets);
      props[j] in LinkAfter(init, props, |props|).inBin <==> !HasBatchParent(init, props[j])
  {
    Setup(docs, facets, props);
    var init := Initial(docs, facets);
    var k := props[j];
    DecidedAtVisit(init, props, j, |props|);
    LinkInvariant(init, props, j);
    if ParentOf(k) in init {
      var a :| 0 <= a < |props| && props[a] == ParentOf(k);
      assert j < a;
    }
  }

  /** After the linking pass, exactly the nodes without a parent in the batch
      are still in `rootbin`: the pass has settled every key as intended. */
  ghost predicate SettledAsIntended(docs: seq<Doc>, facets: seq<FacetItem>, props: seq<string>)
    requires WellFormedBatch(docs, facets, props)
  {
    var init := Initial(docs, facets);
    InitialFacts(docs, facets, props);
    forall j :: 0 <= j < |props| ==>
      (props[j] in LinkAfter(init, props, |props|).inBin <==> !HasBatchParent(init, props[j]))
  }

  lemma SettledNode(docs: seq<Doc>, facets: seq<FacetItem>, props: seq<string>, p: string)
    requires WellFormedBatch(docs, facets, props) && SettledAsIntended(docs, facets, props)
    requires p in DocPaths(docs)
    ensures PostProcess(docs, facets, props).nodes[p] == PostProcessIntended(docs, facets, props).nodes[p]
  {
    Setup(docs, facets, props);
    var init := Initial(docs, facets);
    var s := LinkAfter(init, props, |props|);
    forall c | c in props
      ensures c in MovedUnder(init, s.inBin, p) <==> c in IntendedChildren(init, p)
    {
      var j :| 0 <= j < |props| && props[j] == c;
    }
    KeepCongruent(props, MovedUnder(init, s.inBin, p), IntendedChildren(init, p));
  }

  lemma SettledRoots(docs: seq<Doc>, facets: seq<FacetItem>, props: seq<string>)
    requires WellFormedBatch(docs, facets, props) && SettledAsIntended(docs, facets, props)
    ensures PostProcess(docs, facets, props).roots == PostProcessIntended(docs, facets, props).roots
  {
    Setup(docs, facets, props);
    var init := Initial(docs, facets);
    var s := LinkAfter(init, props, |props|);
    forall k | k in props
      ensures k in s.inBin <==> k in IntendedRoots(init)
    {
      var j :| 0 <= j < |props| && props[j] == k;
    }
    KeepCongruent(props, s.inBin, IntendedRoots(init));
  }

  lemma SettledNodes(docs: seq<Doc>, facets: seq<FacetItem>, props: seq<string>)
    requires WellFormedBatch(docs, facets, props) && SettledAsIntended(docs, facets, props)
    ensures forall p :: p in DocPaths(docs) ==>
      PostProcess(docs, facets, props).nodes[p] == PostProcessIntended(docs, facets, props).nodes[p]
  {
    forall p | p in DocPaths(docs)
      ensures PostProcess(docs, facets, props).nodes[p] == PostProcessIntended(docs, facets, props).nodes[p]
    {
      SettledNode(docs, facets, props, p);
    }
  }

  /** A pass that settles every key as intended builds exactly the intended
      forest. */
  lemma SettledAgrees(docs: seq<Doc>, facets: seq<FacetItem>, props: seq<string>)
    requires WellFormedBatch(docs, facets, props) && SettledAsIntended(docs, facets, props)
    ensures PostProcess(docs, facets, props) == PostProcessIntended(docs, facets, props)
  {
    SettledNodes(docs, facets, props);
    SettledRoots(docs, facets, props);
    SameForest(PostProcess(docs, facets, props), PostProcessIntended(docs, facets, props), DocPaths(docs));
  }

  /** When every child is visited before its parent, the original pass links
      every node whose parent is in the batch, and it builds exactly the
      intended forest. */
  lemma ChildFirstAgrees(docs: seq<Doc>, facets: seq<FacetItem>, props: seq<string>)
    requires WellFormedBatch(docs, facets, props) && ChildFirst(props)
    ensures PostProcess(docs, facets, props) == PostProcessIntended(docs, facets, props)
  {
    InitialFacts(docs, facets, props);
    forall j | 0 <= j < |props|
      ensures props[j] in LinkAfter(Initial(docs, facets), props, |props|).inBin <==>
        !HasBatchParent(Initial(docs, facets), props[j])
    {
      ChildFirstBin(docs, facets, props, j);
    }
    SettledAgrees(docs, facets, props);
  }

  /** The batch spans at most two generations: no path's grandparent path is in
      it, and the empty path is not in it. */
  predicate TwoLevel(paths: set<string>) {
    "" !in paths &&
    forall k :: k in paths && ParentOf(k) in paths ==> ParentOf(ParentOf(k)) !in paths
  }

  /** In a two-generation batch no parent is ever moved, so every key whose
      parent is in the batch finds it in `rootbin`, whatever the key order. */
  lemma TwoLevelBin(docs: seq<Doc>, facets: seq<FacetItem>, props: seq<string>, j: nat)
    requires WellFormedBatch(docs, facets, props) && TwoLevel(DocPaths(docs)) && j < |props|
    ensures var init := Initial(docs, facets);
      props[j] in LinkAfter(init, props, |props|).inBin <==> !HasBatchParent(init, props[j])
  {
    Setup(docs, facets, props);
    var init := Initial(docs, facets);
    var k := props[j];
    var p := ParentOf(k);
    DecidedAtVisit(init, props, j, |props|);
    ParentShorter(k);
    if p in init {
      var a :| 0 <= a < |props| && props[a] == p;
      if a < j {
        DecidedAtVisit(init, props, a, j);
        assert ParentOf(p) !in init;
      } else {
        LinkInvariant(init, props, j);
      }
    }
  }

  /** A batch that spans at most two generations, with no empty path, comes out
      as the intended forest in every key order. */
  lemma TwoLevelAgrees(docs: seq<Doc>, facets: seq<FacetItem>, props: seq<string>)
    requires WellFormedBatch(docs, facets, props) && TwoLevel(DocPaths(docs))
    ensures PostProcess(docs, facets, props) == PostProcessIntended(docs, facets, props)
  {
    InitialFacts(docs, facets, props);
    forall j | 0 <= j < |props|
      ensures props[j] in LinkAfter(Initial(docs, facets), props, |props|).inBin <==>
        !HasBatchParent(Initial(docs, facets), props[j])
    {
      TwoLevelBin(docs, facets, props, j);
    }
    SettledAgrees(docs, facets, props);
  }

  /** Two forests with the same keys, the same node at each key and the same
      roots are equal. */
  lemma SameForest(f: Forest, g: Forest, keys: set<string>)
    requires f.nodes.Keys == keys && g.nodes.Keys == keys
    requires forall p :: p in keys ==> f.nodes[p] == g.nodes[p]
    requires f.roots == g.roots
    ensures f == g
  {
    assert f.nodes == g.nodes;
  }

  // ---------------------------------------------------------------------------
  // Where the original departs from the intended forest

  /** Once moved, a key stays out of `rootbin`: a visited key is in the final
      `rootbin` exactly when it is in `rootbin` at any later point of the pass. */
  lemma SettledAfterVisit(docs: seq<Doc>, facets: seq<FacetItem>, props: seq<string>, j: nat, i: nat)
    requires WellFormedBatch(docs, facets, props) && j < i <= |props|
    ensures var init := Initial(docs, facets);
      props[j] in LinkAfter(init, props, i).inBin <==> props[j] in LinkAfter(init, props, |props|).inBin
  {
    InitialFacts(docs, facets, props);
    var init := Initial(docs, facets);
    DecidedAtVisit(init, props, j, i);
    DecidedAtVisit(init, props, j, |props|);
  }

  /** The lookup runs against the shrinking `rootbin`: a node visited after its
      parent, when that parent has itself already been moved under the
      grandparent, finds no parent and stays a root, although its parent is in
      the batch and the intended forest hangs it under that parent. */
  lemma StrandedBehindMovedParent(docs: seq<Doc>, facets: seq<FacetItem>, props: seq<string>, a: nat, b: nat)
    requires WellFormedBatch(docs, facets, props)
    requires a < b < |props| && ParentOf(props[b]) == props[a]
    requires props[a] !in PostProcess(docs, facets, props).roots
    ensures props[b] in PostProcess(docs, facets, props).roots
    ensures props[b] !in PostProcessIntended(docs, facets, props).roots
  {
    Setup(docs, facets, props);
    var init := Initial(docs, facets);
    FinalState(docs, facets, props, props[a]);
    SettledAfterVisit(docs, facets, props, a, b);
    PostProcessDecidedAtVisit(docs, facets, props, b);
    assert props[a] != props[b];
    assert HasBatchParent(init, props[b]);
  }

  /** The three documents "1", "1/2", "1/2/3", visited in that order, form a
      well-formed batch in which each path's parent path is the one before it. */
  lemma ThreeLevelBatch(docs: seq<Doc>, props: seq<string>)
    requires docs == [Doc("1", "A", 1), Doc("1/2", "B", 2), Doc("1/2/3", "C", 3)]
    requires props == ["1", "1/2", "1/2/3"]
    ensures WellFormedBatch(docs, [], props) && DocPaths(docs) == {"1", "1/2", "1/2/3"}
    ensures ParentOf("1/2/3") == "1/2" && ParentOf("1/2") == "1" && ParentOf("1") == ""
  {
    assert docs[0].ancestorIdPath == "1" && docs[1].ancestorIdPath == "1/2" && docs[2].ancestorIdPath == "1/2/3";
    assert DocPaths(docs) == {"1", "1/2", "1/2/3"};
    assert Distinct(props);
    assert "1/2" + "/" + "3" == "1/2/3" && "1" + "/" + "2" == "1/2";
    SplitPathUnique("1/2", "3");
    SplitPathUnique("1", "2");
    SplitPathSpec("1");
  }

  /** A concrete three-level batch, visited shallowest first: "1/2" is moved
      under "1" before "1/2/3" is visited, so "1/2/3" is returned as a root
      although its parent "1/2" is in the batch.  A batch spanning at most two
      generations is assembled as intended in every order (`TwoLevelAgrees`). */
  lemma StrandedGrandchild(docs: seq<Doc>, props: seq<string>)
    requires docs == [Doc("1", "A", 1), Doc("1/2", "B", 2), Doc("1/2/3", "C", 3)]
    requires props == ["1", "1/2", "1/2/3"]
    ensures WellFormedBatch(docs, [], props)
    ensures "1/2" in PostProcess(docs, [], props).nodes
    ensures PostProcess(docs, [], props).nodes["1/2/3"].parent == "1/2"
    ensures "1/2/3" in PostProcess(docs, [], props).roots
    ensures "1/2/3" !in PostProcessIntended(docs, [], props).roots
  {
    ThreeLevelBatch(docs, props);
    MiddleSettled(docs, props);
    StrandedBehindMovedParent(docs, [], props, 1, 2);
    FinalState(docs, [], props, "1/2/3");
  }

  /** In the three-level batch the top document is a root and the middle one
      has moved under it once the middle one has been visited. */
  lemma MiddleSettled(docs: seq<Doc>, props: seq<string>)
    requires docs == [Doc("1", "A", 1), Doc("1/2", "B", 2), Doc("1/2/3", "C", 3)]
    requires props == ["1", "1/2", "1/2/3"]
    requires WellFormedBatch(docs, [], props)
    requires DocPaths(docs) == {"1", "1/2", "1/2/3"}
    requires ParentOf("1/2") == "1" && ParentOf("1/2/3") == "1/2"
    ensures "1/2" in PostProcess(docs, [], props).nodes
    ensures "1/2" !in PostProcess(docs, [], props).roots
  {
    var facets: seq<FacetItem> := [];
    InitialFacts(docs, facets, props);
    PostProcessDecidedAtVisit(docs, facets, props, 0);
    PostProcessDecidedAtVisit(docs, facets, props, 1);
    SettledAfterVisit(docs, facets, props, 0, 1);
    FinalState(docs, facets, props, "1");
  }

  /** A document with the empty ancestor path is its own parent ("".split('/')
      is [""], so the popped key and the re-joined parent are both ""): the pass
      appends it to its own children and deletes it from `rootbin`, so it is not
      a root and no root reaches it.  The intended forest keeps it as a root. */
  lemma EmptyPathOwnChild(docs: seq<Doc>, facets: seq<FacetItem>, props: seq<string>)
    requires WellFormedBatch(docs, facets, props) && "" in DocPaths(docs)
    ensures "" in PostProcess(docs, facets, props).nodes
    ensures "" !in PostProcess(docs, facets, props).roots
    ensures "" in PostProcess(docs, facets, props).nodes[""].children
    ensures "" in PostProcessIntended(docs, facets, props).roots
  {
    Setup(docs, facets, props);
    var init := Initial(docs, facets);
    ParentShorter("");
    var j :| 0 <= j < |props| && props[j] == "";
    LinkInvariant(init, props, j);
    PostProcessDecidedAtVisit(docs, facets, props, j);
    PostProcessConservation(docs, facets, props);
    FinalState(docs, facets, props, "");
  }
}
