/** What postProcess (js/jquery.kmapstree.js:137-213) guarantees about the forest
    it returns, stated in terms of its inputs and of the forest alone. */
module AssemblyProperties {
  import opened Strings
  import opened Seqs
  import opened Facets
  import opened Assembly

  /** The nodes before linking. */
  function Initial(docs: seq<Doc>, facets: seq<FacetItem>): map<string, Node>
    requires FacetShape(facets)
  {
    RootBin(docs, CountBin(facets))
  }

  /** The facts about `rootbin` the lemmas below start from: the key order
      covers it, its nodes have no children yet, and each node sits at its own
      path with that path's parent path. */
  lemma InitialFacts(docs: seq<Doc>, facets: seq<FacetItem>, props: seq<string>)
    requires WellFormedBatch(docs, facets, props)
    ensures KeyOrder(Initial(docs, facets), props) && Fresh(Initial(docs, facets))
    ensures forall p :: p in Initial(docs, facets) ==>
      Initial(docs, facets)[p].path == p && Initial(docs, facets)[p].parent == ParentOf(p)
  {
    var init := Initial(docs, facets);
    forall p | p in init
      ensures init[p].parent == ParentOf(p)
    {
      var i := RootBinFromDocs(docs, CountBin(facets), p);
    }
  }

  /** The facts about the finished linking pass the lemmas below start from. */
  lemma Setup(docs: seq<Doc>, facets: seq<FacetItem>, props: seq<string>)
    requires WellFormedBatch(docs, facets, props)
    ensures KeyOrder(Initial(docs, facets), props) && Fresh(Initial(docs, facets))
    ensures forall p :: p in Initial(docs, facets) ==>
      Initial(docs, facets)[p].path == p && Initial(docs, facets)[p].parent == ParentOf(p)
    ensures var init := Initial(docs, facets);
      var s := LinkAfter(init, props, |props|);
      forall p :: p in init ==> s.nodes[p] == Linked(init[p], Keep(props, MovedUnder(init, s.inBin, p)))
    ensures PostProcess(docs, facets, props) ==
      var s := LinkAfter(Initial(docs, facets), props, |props|);
      Forest(s.nodes, Keep(props, s.inBin))
  {
    InitialFacts(docs, facets, props);
    var init := Initial(docs, facets);
    LinkInvariant(init, props, |props|);
    assert props[..|props|] == props;
    var s := LinkAfter(init, props, |props|);
    assert LinkInv(init, props, |props|, s);
  }

  /** Every document path gets exactly one node, built from the last document
      with that path: its key, title, parent path, path and level are that
      document's. */
  lemma PostProcessNodes(docs: seq<Doc>, facets: seq<FacetItem>, props: seq<string>, i: nat)
    requires WellFormedBatch(docs, facets, props)
    requires i < |docs| && LastDoc(docs, i)
    ensures docs[i].ancestorIdPath in PostProcess(docs, facets, props).nodes
    ensures
      var n := PostProcess(docs, facets, props).nodes[docs[i].ancestorIdPath];
      var m := MakeNode(docs[i], CountBin(facets));
      n.key == m.key && n.title == m.title && n.parent == m.parent &&
      n.path == m.path && n.level == m.level
  {
    Setup(docs, facets, props);
    RootBinLastWins(docs, CountBin(facets), i);
  }

  /** The forest's view of the finished linking pass: roots are the keys left in
      `rootbin`, and linking changed no node's parent path. */
  lemma FinalState(docs: seq<Doc>, facets: seq<FacetItem>, props: seq<string>, c: string)
    requires WellFormedBatch(docs, facets, props) && c in props
    ensures var s := LinkAfter(Initial(docs, facets), props, |props|);
      var f := PostProcess(docs, facets, props);
      c in f.nodes && (c in f.roots <==> c in s.inBin) &&
      f.nodes[c].parent == Initial(docs, facets)[c].parent
  {
    Setup(docs, facets, props);
  }

  /** The children of each node are, in visiting order, exactly the non-root
      nodes whose parent path is that node's path. */
  lemma PostProcessChildren(docs: seq<Doc>, facets: seq<FacetItem>, props: seq<string>)
    requires WellFormedBatch(docs, facets, props)
    ensures var f := PostProcess(docs, facets, props);
      forall p :: p in f.nodes ==>
        f.nodes[p].children == Keep(props, set c | c in f.nodes && c !in f.roots && f.nodes[c].parent == p)
  {
    Setup(docs, facets, props);
    var init := Initial(docs, facets);
    var s := LinkAfter(init, props, |props|);
    var f := PostProcess(docs, facets, props);
    assert f.nodes == s.nodes;
    forall p | p in f.nodes
      ensures f.nodes[p].children == Keep(props, set c | c in f.nodes && c !in f.roots && f.nodes[c].parent == p)
    {
      var out := set c | c in f.nodes && c !in f.roots && f.nodes[c].parent == p;
      forall c | c in props
        ensures c in MovedUnder(init, s.inBin, p) <==> c in out
      {
        FinalState(docs, facets, props, c);
      }
      KeepCongruent(props, MovedUnder(init, s.inBin, p), out);
      assert s.nodes[p].children == Keep(props, MovedUnder(init, s.inBin, p));
    }
  }

  /** Whether `props[j]` ends up a root was decided when it was visited: it is
      moved under its parent exactly when its parent path was still a key of
      `rootbin` at that moment; otherwise it stays a root. */
  lemma PostProcessDecidedAtVisit(docs: seq<Doc>, facets: seq<FacetItem>, props: seq<string>, j: nat)
    requires WellFormedBatch(docs, facets, props)
    requires j < |props|
    ensures props[j] in PostProcess(docs, facets, props).roots <==>
      ParentOf(props[j]) !in LinkAfter(Initial(docs, facets), props, j).inBin
  {
    Setup(docs, facets, props);
    DecidedAtVisit(Initial(docs, facets), props, j, |props|);
  }

  /** A node moved under a parent had that parent in the batch. */
  lemma MovedHasParent(docs: seq<Doc>, facets: seq<FacetItem>, props: seq<string>, k: string)
    requires WellFormedBatch(docs, facets, props)
    requires k in props && k !in PostProcess(docs, facets, props).roots
    ensures ParentOf(k) in PostProcess(docs, facets, props).nodes
  {
    Setup(docs, facets, props);
    var j :| 0 <= j < |props| && props[j] == k;
    PostProcessDecidedAtVisit(docs, facets, props, j);
  }

  /** Conservation: each document path occurs exactly once in the forest, either
      as a root or as a child of its own parent path's node (and of no other),
      and no children list repeats a key. */
  lemma PostProcessConservation(docs: seq<Doc>, facets: seq<FacetItem>, props: seq<string>)
    requires WellFormedBatch(docs, facets, props)
    ensures var f := PostProcess(docs, facets, props);
      forall k :: k in f.nodes ==>
        (k in f.roots <==> !(f.nodes[k].parent in f.nodes && k in f.nodes[f.nodes[k].parent].children))
    ensures var f := PostProcess(docs, facets, props);
      forall p, c :: p in f.nodes && c in f.nodes[p].children ==>
        c in f.nodes && c !in f.roots && f.nodes[c].parent == p
    ensures var f := PostProcess(docs, facets, props);
      forall p :: p in f.nodes ==> Distinct(f.nodes[p].children)
  {
    Setup(docs, facets, props);
    PostProcessChildren(docs, facets, props);
    var f := PostProcess(docs, facets, props);
    forall k | k in f.nodes
      ensures k in f.roots <==> !(f.nodes[k].parent in f.nodes && k in f.nodes[f.nodes[k].parent].children)
    {
      assert k in props;
      if k !in f.roots {
        MovedHasParent(docs, facets, props, k);
      }
    }
    forall p | p in f.nodes
      ensures Distinct(f.nodes[p].children)
    {
      KeepDistinct(props, set c | c in f.nodes && c !in f.roots && f.nodes[c].parent == p);
    }
  }

  /** The final `lazy` flag: a node is lazy exactly when its facet count made it
      lazy initially and it received no child.  So a node that received a child
      is never lazy, one that received none keeps its initial flag, and no node
      goes from non-lazy to lazy. */
  lemma PostProcessLazy(docs: seq<Doc>, facets: seq<FacetItem>, props: seq<string>)
    requires WellFormedBatch(docs, facets, props)
    ensures var f := PostProcess(docs, facets, props);
      forall p :: p in f.nodes ==>
        (f.nodes[p].lazy <==> InitialLazy(CountBin(facets), p) && f.nodes[p].children == [])
  {
    Setup(docs, facets, props);
    var f := PostProcess(docs, facets, props);
    forall p | p in f.nodes
      ensures f.nodes[p].lazy <==> InitialLazy(CountBin(facets), p) && f.nodes[p].children == []
    {
      var i := RootBinFromDocs(docs, CountBin(facets), p);
    }
  }
}
