# kmaps tree: forest assembly and Solr requests

A Dafny model of the core of the `kmapsTree` jQuery plugin (`js/jquery.kmapstree.js`).
The plugin shows a Fancytree of SHANTI knowledge-map terms (places, subjects). The tree
pages its data from a Solr term index. The model covers three parts:

- **`postProcess`** turns one Solr response into tree nodes. The response holds a batch
  of documents (`ancestor_id_path`, `header`, `level_i`) and the flat facet array
  `[path, count, path, count, ...]`.
  - The facet counts give `countbin`; a path whose count is not 1 has descendants in the
    index, so its node starts lazy.
  - Every document becomes a node in `rootbin`, keyed by its path. Its key is the last
    path segment and its parent is the path with that segment removed.
  - One pass over `rootbin`'s keys moves each node under its parent, if the parent is
    still in `rootbin`. A parent that receives a child stops being lazy.
  - Whatever is left in `rootbin` is returned as the roots.
- **`buildQuery`** writes the Solr `select` URL for a subtree: the tree name, the ancestor
  path, and two level ranges. Its callers are the tree's first page (line 135, id
  13735, levels 1 to 2) and **`lazyLoad`**, which asks for the level below an expanded
  node. The default settings (lines 18-23) are modelled as well.

Modules:

- `Strings` models JavaScript's `split`, `join` and integer-to-text rendering.
- `Seqs` holds order-preserving filters.
- `Facets` models the facet array and `countbin`.
- `Assembly` models `postProcess` as written. The linking pass is a fold over the key
  order, with a map of nodes and the set of keys still in `rootbin`.
- `AssemblyProperties` states what the returned forest satisfies.
- `AssemblyIntended` defines the forest the code evidently means to build, relates the
  two, and exhibits where they differ.
- `Query` models the request URL, reading its query string back as `name=value` pairs,
  and the callers.

Three behaviours of the code are easy to miss; the model follows the code in each:

- The documents are not sorted by path before assembly; the sort is commented out at
  lines 148-152.
- `buildQuery` does not strip a leading '/' from the path.
- A document whose ancestor path is empty becomes its own child rather than a root.

## Model

| member | source | states |
|---|---|---|
| Strings.JoinSplit | js/jquery.kmapstree.js:167-177 | joining the pieces of `split('/')` with '/' gives the path back |
| Strings.SplitJoin | js/jquery.kmapstree.js:167-177 | splitting a '/'-join of separator-free segments gives the segments back |
| Strings.IntToStringRoundTrip | js/jquery.kmapstree.js:444-445 | the decimal text written for a level reads back as that level, so distinct levels give distinct texts |
| Facets.CountBinLastWins | js/jquery.kmapstree.js:154-159 | `countbin` has exactly the facet labels as keys; each key holds the count after its last occurrence minus one, or NaN when that occurrence has no count |
| Facets.InitialLazyFromFacets | js/jquery.kmapstree.js:185 | a node starts lazy if and only if its path occurs as a facet label whose last occurrence is followed by a count, and that count is not 1 |
| Assembly.SplitPathSpec | js/jquery.kmapstree.js:166-177 | a path containing '/' is its parent, '/', then its key; a path without '/' is its own key and has the empty parent |
| Assembly.SplitPathUnique | js/jquery.kmapstree.js:166-177 | for a key without '/', the path `parent/key` has exactly that key and that parent |
| Assembly.ParentShorter | js/jquery.kmapstree.js:167-177 | only the empty path is its own parent; every other path's parent is strictly shorter |
| Assembly.MakeNode | js/jquery.kmapstree.js:178-186 | a node keeps its document's path, title and level; its key has no '/' and recomposes the path with its parent; it is lazy iff its `countbin` entry is truthy; it has no children |
| Assembly.RootBinLastWins | js/jquery.kmapstree.js:163-188 | when two documents share a path, `rootbin` holds the node of the later one |
| Assembly.LinkStep | js/jquery.kmapstree.js:195-206 | one visit keeps every node and removes at most the visited key from `rootbin` |
| Assembly.LinkInvariant | js/jquery.kmapstree.js:194-207 | after visiting any prefix of the key order, unvisited keys are still in `rootbin`, and each node's children are the visited keys moved under it, in visiting order |
| Assembly.DecidedAtVisit | js/jquery.kmapstree.js:194-207 | a key stays in `rootbin` after the pass iff its parent was absent from `rootbin` when the key was visited |
| Assembly.PostProcess | js/jquery.kmapstree.js:137-213 | the forest has one node per document path; its roots are distinct keys of the batch |
| AssemblyProperties.PostProcessNodes | js/jquery.kmapstree.js:163-188 | each path's node carries the key, title, parent, path and level of the last document with that path |
| AssemblyProperties.PostProcessChildren | js/jquery.kmapstree.js:198-206 | each node's children are, in key order, exactly the non-root nodes whose parent path is that node |
| AssemblyProperties.PostProcessDecidedAtVisit | js/jquery.kmapstree.js:194-207 | a key is a root iff its parent was no longer in `rootbin` when the key was visited |
| AssemblyProperties.MovedHasParent | js/jquery.kmapstree.js:198-205 | a node that is not a root has its parent among the nodes |
| AssemblyProperties.PostProcessConservation | js/jquery.kmapstree.js:194-211 | every node is either a root or a child of its parent, never both; children are distinct non-root nodes naming that parent |
| AssemblyProperties.PostProcessLazy | js/jquery.kmapstree.js:185-204 | a node is lazy iff its facet count made it lazy and it received no children |
| AssemblyIntended.PostProcessIntended | js/jquery.kmapstree.js:194-211 | corrected forest: one node per document path, each parent looked up in the whole batch, no node its own parent |
| AssemblyIntended.IntendedForest | js/jquery.kmapstree.js:194-211 | in the corrected forest, a node is a root iff its parent path is not in the batch (or is itself); every other node is among its parent's children; each child's path is strictly longer than its parent's |
| AssemblyIntended.IntendedChildrenAndLazy | js/jquery.kmapstree.js:185-204 | in the corrected forest, children are distinct, and a node is lazy iff its facet count made it lazy and it has no children |
| AssemblyIntended.ChildFirstAgrees | js/jquery.kmapstree.js:194-207 | when every child is visited before its parent, the code's forest equals the corrected one |
| AssemblyIntended.TwoLevelAgrees | js/jquery.kmapstree.js:194-207 | when no path's grandparent path is in the batch and the empty path is absent, the code's forest equals the corrected one in every key order |
| AssemblyIntended.StrandedBehindMovedParent | js/jquery.kmapstree.js:198-207 | a node visited after its parent was moved under a grandparent stays a root, although the corrected forest places it under that parent |
| AssemblyIntended.StrandedGrandchild | js/jquery.kmapstree.js:194-211 | with paths "1", "1/2", "1/2/3" visited in that order, "1/2/3" is returned as a root although its parent "1/2" is in the forest |
| AssemblyIntended.EmptyPathOwnChild | js/jquery.kmapstree.js:167-206 | a document with the empty path becomes its own child and is not a root; the corrected forest keeps it as a root |
| Query.TextRoundTrip | js/jquery.kmapstree.js:436-452 | a pair with no '=' or '&' in its name and no '&' in its value reads back from its `name=value` text |
| Query.RenderRoundTrip | js/jquery.kmapstree.js:436-452 | a non-empty list of such pairs, joined with '&', reads back as the same list |
| Query.BuildQueryRenders | js/jquery.kmapstree.js:436-452 | the URL is the root's `select` handler followed by the '&'-join of the seventeen request pairs |
| Query.BuildQueryRoundTrip | js/jquery.kmapstree.js:432-456 | if the root has no '?' and the tree and path have no '&', the URL's part before '?' is the `select` handler, and its query string reads back as exactly the seventeen pairs |
| Query.BuildQueryRequest | js/jquery.kmapstree.js:443-452 | the request reads back with `q` on the ancestor path, three filters in order (the tree, levels `lvla` to `lvlb+1`, and the `hoot`-tagged levels `lvla` to `lvlb`), facet minimum count 2 and 50 rows |
| Query.LevelRangeInjective | js/jquery.kmapstree.js:444-445 | two level filters are equal only for the same bounds |
| Query.BuildQueryInjective | js/jquery.kmapstree.js:432-456 | distinct arguments without '?' in the root and '&' in the tree or path give distinct URLs |
| Query.LazyLoadRequest | js/jquery.kmapstree.js:215-225 | expanding a node at level L sends `q=ancestor_id_path:<its path>` to its tree's `select` handler with the filters, in order, `tree:<tree>`, `level_i:[L+1 TO L+2]` and the `hoot`-tagged `level_i:[L+1 TO L+1]` |
| Query.InitialSourceRequest | js/jquery.kmapstree.js:135 | the first page sends `q=ancestor_id_path:13735` to the `select` handler with the filters, in order, `tree:<tree>`, `level_i:[1 TO 3]` and the `hoot`-tagged `level_i:[1 TO 2]` |
| Query.DefaultsUsable | js/jquery.kmapstree.js:18-23 | the default term index root has no '?' and the default tree has no '&', so requests built from them read back |
| Query.DefaultInitialRequest | js/jquery.kmapstree.js:18-23 | with the defaults, the first page queries the `select` handler of the default term index for the `places` tree below 13735 |

## Left out

- `showPaths`, the popover and count-update code, the AJAX wiring and the plugin
  dispatcher are outside this model. Only the three functions above and the default
  settings are modelled.
- The `$.extend` merge of user options over the defaults is left out. The settings are a
  parameter.
- The key order `Object.getOwnPropertyNames(rootbin)` is a parameter: any order that lists
  each document path once. JavaScript lists integer-like keys (such as "13735") first, in
  numeric order, and then the other keys in insertion order. That order is not computed.
- Keys inherited from `Object.prototype` are left out. Paths such as "constructor" would
  make `rootbin[node.parent]` or `countbin[path]` find an inherited value.
- Facet arrays that do not alternate label and count are left out; `FacetShape` requires
  that layout. The coercion of non-numeric counts is not modelled.
- Levels are integers. The JavaScript rendering of non-integer, `NaN` or `undefined`
  levels, and of magnitudes of 1e21 or more, is not modelled.
- Query strings are read back without percent-decoding, and without '+' standing for a
  space. Solr's evaluation of the filters, HTTP and the Fancytree rendering of the forest
  are left out.
- `lazyLoad` reads the node's key into a variable it never uses, and no modelled request
  reads `kmindex_root` or `baseUrl`. Those settings appear only in `Settings` and
  `Defaults`.
- The `console.dir` logging at line 212 is left out.
- The link between a document's `level_i` and the depth of its path is not modelled.
  So `AssemblyIntended.TwoLevelAgrees` takes the two-generation shape of a batch as a
  hypothesis; it does not derive that shape from the request's level filters.
- Assembly.PostProcess: its own contract states only the node key set and the distinct
  roots. The structure of the forest is stated by the `AssemblyProperties` lemmas.

## Findings

| source | as written | input that shows it | evidently intended | confidence | as-written member | corrected member |
|---|---|---|---|---|---|---|
| js/jquery.kmapstree.js:194-207 | The parent is looked up in `rootbin`, and the pass deletes each moved node from `rootbin`. A node visited after its parent has moved under the grandparent finds no parent and stays a root. | Documents "1", "1/2", "1/2/3" whose keys are visited in that order. The plugin's own requests do not produce such a batch: Solr intersects the filters, so the first page returns levels 1-2 and `lazyLoad` one level. A batch in which no path's grandparent is present is assembled as intended in every order (`AssemblyIntended.TwoLevelAgrees`), so the defect is latent for those requests. | "1/2/3" hangs under "1/2", whatever the visiting order | medium that the pass is wrong for deeper batches; low that the plugin's own requests trigger it; not executed | AssemblyIntended.StrandedGrandchild | AssemblyIntended.PostProcessIntended |
| js/jquery.kmapstree.js:167-206 | `"".split('/')` is `[""]`, so the empty path has key "" and parent "". The node finds itself in `rootbin`, is appended to its own children and is deleted, so no root reaches it. | A document whose `ancestor_id_path` is "" | the node stays a root and has no self-loop | low, not executed | AssemblyIntended.EmptyPathOwnChild | AssemblyIntended.PostProcessIntended |
