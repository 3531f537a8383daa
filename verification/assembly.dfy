/** The batch-to-forest conversion of the kmaps tree (`postProcess`,
    js/jquery.kmapstree.js:137-213): a page of Solr documents and the facet
    counts that came with it become Fancytree nodes, linked parent to child by
    their ancestor paths.

    JavaScript objects alias freely; here every node lives in one map keyed by
    its full path, and a node's `children` are the paths of its children. */
module Assembly {
  import opened Strings
  import opened Seqs
  import opened Facets

  /** One Solr document of the batch: `ancestor_id_path`, `header`, `level_i`. */
  datatype Doc = Doc(ancestorIdPath: string, header: string, level: int)

  /** The node object postProcess hands to Fancytree. */
  datatype Node = Node(
    key: string,
    title: string,
    parent: string,
    path: string,
    level: int,
    lazy: bool,
    children: seq<string>)

  // ---------------------------------------------------------------------------
  // Key and parent path (lines 166-177)

  /** `ancestorIdPath.split('/').pop()`: the last segment of the path. */
  function KeyOf(path: string): (key: string)
    ensures '/' !in key
  {
    var pp := Split(path, '/');
    pp[|pp| - 1]
  }

  /** `pp.join("/")` after the pop: every segment but the last, re-joined. */
  function ParentOf(path: string): string {
    var pp := Split(path, '/');
    Join(pp[..|pp| - 1], '/')
  }

  /** A path with a separator is its parent path, a separator and its key; a path
      without one is its own key and has the empty parent path. */
  lemma SplitPathSpec(path: string)
    ensures '/' in path ==> ParentOf(path) + "/" + KeyOf(path) == path
    ensures '/' !in path ==> ParentOf(path) == "" && KeyOf(path) == path
  {
    var pp := Split(path, '/');
    JoinSplit(path, '/');
    if |pp| == 1 {
      assert Join(pp, '/') == pp[0];
    } else {
      assert pp == pp[..|pp| - 1] + [pp[|pp| - 1]];
      JoinSnoc(pp[..|pp| - 1], pp[|pp| - 1], '/');
    }
  }

  /** The split is the only one: gluing any parent path to a separator-free key
      and splitting again gives back exactly that parent and that key. */
  lemma SplitPathUnique(parent: string, key: string)
    requires '/' !in key
    ensures KeyOf(parent + "/" + key) == key
    ensures ParentOf(parent + "/" + key) == parent
  {
    SplitConcat(parent, key, '/');
    SplitNoSeparator(key, '/');
    JoinSplit(parent, '/');
    var pp := Split(parent + "/" + key, '/');
    assert pp == Split(parent, '/') + [key];
    assert pp[..|pp| - 1] == Split(parent, '/');
  }

  /** Only the empty path is its own parent; any other path is strictly longer
      than its parent path. */
  lemma ParentShorter(path: string)
    ensures ParentOf(path) == path <==> path == ""
    ensures path != "" ==> |ParentOf(path)| < |path|
  {
    SplitPathSpec(path);
  }

  // ---------------------------------------------------------------------------
  // Node creation (lines 163-188)

  /** The node built for one document, with its initial `lazy` taken from the
      truthiness of `countbin[path]` and no children yet. */
  function MakeNode(doc: Doc, countbin: map<string, Bin>): (n: Node)
    ensures n.path == doc.ancestorIdPath && n.title == doc.header && n.level == doc.level
    ensures '/' !in n.key
    ensures '/' in n.path ==> n.parent + "/" + n.key == n.path
    ensures '/' !in n.path ==> n.parent == "" && n.key == n.path
    ensures n.lazy <==> doc.ancestorIdPath in countbin && Truthy(countbin[doc.ancestorIdPath])
    ensures n.children == []
  {
    SplitPathSpec(doc.ancestorIdPath);
    Node(
      key := KeyOf(doc.ancestorIdPath),
      title := doc.header,
      parent := ParentOf(doc.ancestorIdPath),
      path := doc.ancestorIdPath,
      level := doc.level,
      lazy := InitialLazy(countbin, doc.ancestorIdPath),
      children := [])
  }

  /** The paths of the first `n` documents. */
  function PathsBelow(docs: seq<Doc>, n: nat): set<string>
    requires n <= |docs|
  {
    set i | 0 <= i < n :: docs[i].ancestorIdPath
  }

  /** The paths of all documents of the batch. */
  function DocPaths(docs: seq<Doc>): set<string> {
    PathsBelow(docs, |docs|)
  }

  /** `rootbin` after the first `n` documents: `rootbin[path] = n`, a later
      document overwriting an earlier one with the same path. */
  function RootBinAfter(docs: seq<Doc>, countbin: map<string, Bin>, n: nat): (rb: map<string, Node>)
    requires n <= |docs|
    ensures rb.Keys == PathsBelow(docs, n)
    ensures forall p :: p in rb ==> rb[p].path == p && rb[p].children == []
    decreases n
  {
    if n == 0 then map[]
    else
      var d := docs[n - 1];
      assert PathsBelow(docs, n) == PathsBelow(docs, n - 1) + {d.ancestorIdPath};
      RootBinAfter(docs, countbin, n - 1)[d.ancestorIdPath := MakeNode(d, countbin)]
  }

  /** The filled `rootbin`, before linking. */
  function RootBin(docs: seq<Doc>, countbin: map<string, Bin>): map<string, Node> {
    RootBinAfter(docs, countbin, |docs|)
  }

  /** Document `i` is the last one of the batch with its path. */
  predicate LastDoc(docs: seq<Doc>, i: nat)
    requires i < |docs|
  {
    forall j :: i < j < |docs| ==> docs[j].ancestorIdPath != docs[i].ancestorIdPath
  }

  lemma {:induction false} RootBinAfterLastWins(docs: seq<Doc>, countbin: map<string, Bin>, n: nat, i: nat)
    requires i < n <= |docs|
    requires forall j :: i < j < n ==> docs[j].ancestorIdPath != docs[i].ancestorIdPath
    ensures RootBinAfter(docs, countbin, n)[docs[i].ancestorIdPath] == MakeNode(docs[i], countbin)
    decreases n
  {
    if i != n - 1 {
      RootBinAfterLastWins(docs, countbin, n - 1, i);
    }
  }

  /** When two documents share a path, the node of the later one is kept. */
  lemma RootBinLastWins(docs: seq<Doc>, countbin: map<string, Bin>, i: nat)
    requires i < |docs| && LastDoc(docs, i)
    ensures RootBin(docs, countbin)[docs[i].ancestorIdPath] == MakeNode(docs[i], countbin)
  {
    RootBinAfterLastWins(docs, countbin, |docs|, i);
  }

  /** Every node of `rootbin` was built from the last document with its path. */
  lemma RootBinFromDocs(docs: seq<Doc>, countbin: map<string, Bin>, p: string) returns (i: nat)
    requires p in RootBin(docs, countbin)
    ensures i < |docs| && LastDoc(docs, i) && docs[i].ancestorIdPath == p
    ensures RootBin(docs, countbin)[p] == MakeNode(docs[i], countbin)
  {
    var i0 :| 0 <= i0 < |docs| && docs[i0].ancestorIdPath == p;
    i := LastDocFrom(docs, i0);
    RootBinLastWins(docs, countbin, i);
  }

  lemma LastDocFrom(docs: seq<Doc>, i0: nat) returns (i: nat)
    requires i0 < |docs|
    ensures i0 <= i < |docs| && docs[i].ancestorIdPath == docs[i0].ancestorIdPath && LastDoc(docs, i)
    decreases |docs| - i0
  {
    if LastDoc(docs, i0) {
      i := i0;
    } else {
      var j :| i0 < j < |docs| && docs[j].ancestorIdPath == docs[i0].ancestorIdPath;
      i := LastDocFrom(docs, j);
    }
  }

  // ---------------------------------------------------------------------------
  // The linking pass (lines 193-207)

  /** The linking pass's state: every node ever created (a node moved under its
      parent stays reachable through the parent's `children`), and the keys still
      present in `rootbin`. */
  datatype LinkState = LinkState(nodes: map<string, Node>, inBin: set<string>)

  /** One iteration, visiting key `k`: when the node's parent path is still a key
      of `rootbin`, the node is appended to that parent's children, the parent
      stops being lazy, and `k` is deleted from `rootbin`. */
  function LinkStep(s: LinkState, k: string): (r: LinkState)
    requires k in s.nodes && s.inBin <= s.nodes.Keys
    ensures r.nodes.Keys == s.nodes.Keys && r.inBin <= s.inBin
    ensures r.inBin == s.inBin || r.inBin == s.inBin - {k}
  {
    var node := s.nodes[k];
    if node.parent in s.inBin then
      var p := s.nodes[node.parent];
      LinkState(s.nodes[node.parent := p.(children := p.children + [k], lazy := false)], s.inBin - {k})
    else s
  }

  /** `props` is a key order of `rootbin`: each key exactly once. */
  ghost predicate KeyOrder(init: map<string, Node>, props: seq<string>) {
    Distinct(props) && forall k :: k in props <==> k in init
  }

  /** The state after visiting `props[..i]`, starting from the full `rootbin`. */
  function LinkAfter(init: map<string, Node>, props: seq<string>, i: nat): (s: LinkState)
    requires i <= |props| && forall k :: k in props ==> k in init
    ensures s.nodes.Keys == init.Keys && s.inBin <= init.Keys
    decreases i
  {
    if i == 0 then LinkState(init, init.Keys)
    else LinkStep(LinkAfter(init, props, i - 1), props[i - 1])
  }

  /** The keys visited so far that were moved under the node at path `p`. */
  function MovedUnder(init: map<string, Node>, inBin: set<string>, p: string): set<string> {
    set c | c in init && c !in inBin && init[c].parent == p
  }

  /** `n` after receiving the children `ch`: lazy only if it started lazy and
      received none. */
  function Linked(n: Node, ch: seq<string>): Node {
    n.(children := ch, lazy := n.lazy && |ch| == 0)
  }

  /** What holds after visiting `props[..i]`: unvisited keys are still in
      `rootbin`, and each node's children are, in visiting order, the visited keys
      that were moved under it. */
  predicate LinkInv(init: map<string, Node>, props: seq<string>, i: nat, s: LinkState)
    requires i <= |props|
  {
    && s.nodes.Keys == init.Keys && s.inBin <= init.Keys
    && (forall j :: i <= j < |props| ==> props[j] in s.inBin)
    && (forall p :: p in init ==> s.nodes[p] == Linked(init[p], Keep(props[..i], MovedUnder(init, s.inBin, p))))
  }

  /** Nodes fresh from `rootbin` have no children yet. */
  predicate Fresh(init: map<string, Node>) {
    forall p :: p in init ==> init[p].children == []
  }

  lemma LinkStepPreserves(init: map<string, Node>, props: seq<string>, i: nat)
    requires KeyOrder(init, props) && i < |props|
    requires LinkInv(init, props, i, LinkAfter(init, props, i))
    ensures LinkInv(init, props, i + 1, LinkAfter(init, props, i + 1))
  {
    var s := LinkAfter(init, props, i);
    var k := props[i];
    var s' := LinkAfter(init, props, i + 1);
    assert s' == LinkStep(s, k);
    var q := init[k].parent;
    assert s.nodes[k].parent == q;
    assert k in s.inBin;
    assert props[..i + 1] == props[..i] + [k];
    forall j | i + 1 <= j < |props|
      ensures props[j] in s'.inBin
    {
      assert props[j] != k;
    }
    forall p | p in init
      ensures s'.nodes[p] == Linked(init[p], Keep(props[..i + 1], MovedUnder(init, s'.inBin, p)))
    {
      var before := Keep(props[..i], MovedUnder(init, s.inBin, p));
      forall x | x in props[..i]
        ensures x in MovedUnder(init, s.inBin, p) <==> x in MovedUnder(init, s'.inBin, p)
      {
        assert x != k;
      }
      KeepCongruent(props[..i], MovedUnder(init, s.inBin, p), MovedUnder(init, s'.inBin, p));
      KeepSnoc(props[..i], k, MovedUnder(init, s'.inBin, p));
      if q in s.inBin && p == q {
        assert k in MovedUnder(init, s'.inBin, p);
        assert s'.nodes[p] == s.nodes[p].(children := before + [k], lazy := false);
      } else {
        assert k !in MovedUnder(init, s'.inBin, p);
      }
    }
  }

  lemma LinkInvInitial(init: map<string, Node>, props: seq<string>)
    requires KeyOrder(init, props) && Fresh(init)
    ensures LinkInv(init, props, 0, LinkAfter(init, props, 0))
  {
    var s := LinkAfter(init, props, 0);
    assert props[..0] == [];
    forall p | p in init
      ensures s.nodes[p] == Linked(init[p], Keep(props[..0], MovedUnder(init, s.inBin, p)))
    {
      assert Keep([], MovedUnder(init, s.inBin, p)) == [];
    }
  }

  /** The linking invariant holds after every prefix of the key order. */
  lemma {:induction false} LinkInvariant(init: map<string, Node>, props: seq<string>, i: nat)
    requires KeyOrder(init, props) && Fresh(init) && i <= |props|
    ensures LinkInv(init, props, i, LinkAfter(init, props, i))
    decreases i
  {
    if i == 0 {
      LinkInvInitial(init, props);
    } else {
      var j := i - 1;
      LinkInvariant(init, props, j);
      LinkStepPreserves(init, props, j);
      assert j + 1 == i;
    }
  }

  /** Whether a key is still in `rootbin` is decided at its own visit and never
      changes afterwards: `props[j]` is deleted exactly when its parent path was a
      key of `rootbin` at the moment `props[j]` was visited. */
  lemma {:induction false} DecidedAtVisit(init: map<string, Node>, props: seq<string>, j: nat, i: nat)
    requires KeyOrder(init, props) && Fresh(init) && j < i <= |props|
    ensures props[j] in LinkAfter(init, props, i).inBin <==>
      init[props[j]].parent !in LinkAfter(init, props, j).inBin
    decreases i
  {
    if i == j + 1 {
      LinkInvariant(init, props, j);
      var s := LinkAfter(init, props, j);
      assert s.nodes[props[j]].parent == init[props[j]].parent;
      assert props[j] in s.inBin;
    } else {
      DecidedAtVisit(init, props, j, i - 1);
      assert props[i - 1] != props[j];
    }
  }

  // ---------------------------------------------------------------------------
  // The whole of postProcess

  /** What postProcess hands back: the node store and the root keys, in key order. */
  datatype Forest = Forest(nodes: map<string, Node>, roots: seq<string>)

  /** The caller-side conditions: a facet array in Solr's shape, and a key order
      for `rootbin` (one entry per distinct document path). */
  ghost predicate WellFormedBatch(docs: seq<Doc>, facets: seq<FacetItem>, props: seq<string>) {
    FacetShape(facets) && Distinct(props) && forall k :: k in props <==> k in DocPaths(docs)
  }

  /** postProcess: count the facets, build `rootbin`, run one linking pass over
      the key order `props`, and return the keys left in `rootbin` as roots. */
  function PostProcess(docs: seq<Doc>, facets: seq<FacetItem>, props: seq<string>): (f: Forest)
    requires WellFormedBatch(docs, facets, props)
    ensures f.nodes.Keys == DocPaths(docs)
    ensures forall k :: k in f.roots ==> k in props
    ensures Distinct(f.roots)
  {
    var init := RootBin(docs, CountBin(facets));
    var s := LinkAfter(init, props, |props|);
    KeepDistinct(props, s.inBin);
    Forest(s.nodes, Keep(props, s.inBin))
  }
}
