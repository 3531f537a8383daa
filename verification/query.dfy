/** The Solr request URLs of the kmaps tree: `buildQuery`
    (js/jquery.kmapstree.js:432-456), the first page the tree asks for when it
    is created (line 135) and the page it asks for when a lazy node is expanded
    (`lazyLoad`, lines 215-225).

    A URL is modelled as the text `buildQuery` concatenates; its query string is
    read back as the list of `name=value` pairs a server sees after splitting at
    every '&' and at the first '=' of each pair. */
module Query {
  import opened Strings
  import opened Assembly

  /** One `name=value` pair of a query string. */
  datatype Param = Param(name: string, value: string)

  /** The text of one pair. */
  function Text(p: Param): string {
    p.name + "=" + p.value
  }

  function Texts(ps: seq<Param>): (ts: seq<string>)
    ensures |ts| == |ps|
    ensures forall i :: 0 <= i < |ps| ==> ts[i] == Text(ps[i])
  {
    if |ps| == 0 then [] else [Text(ps[0])] + Texts(ps[1..])
  }

  /** The query string of a list of pairs: their texts joined by '&'. */
  function Render(ps: seq<Param>): string {
    Join(Texts(ps), '&')
  }

  /** Reads one pair back: the name ends at the first '='. */
  function ParseParam(t: string): (p: Param)
    ensures '=' !in p.name
  {
    Param(BeforeFirst(t, '='), AfterFirst(t, '='))
  }

  function ParseParams(ts: seq<string>): (ps: seq<Param>)
    ensures |ps| == |ts|
    ensures forall i :: 0 <= i < |ts| ==> ps[i] == ParseParam(ts[i])
  {
    if |ts| == 0 then [] else [ParseParam(ts[0])] + ParseParams(ts[1..])
  }

  /** Reads a query string back as its pairs, in order. */
  function ParseQuery(q: string): seq<Param> {
    ParseParams(Split(q, '&'))
  }

  /** The query string of a URL: everything after its first '?'. */
  function QueryPart(url: string): string {
    AfterFirst(url, '?')
  }

  /** A pair that survives the round trip: no '=' or '&' in its name, no '&' in
      its value. */
  predicate Plain(p: Param) {
    (forall i :: 0 <= i < |p.name| ==> p.name[i] != '=' && p.name[i] != '&') &&
    (forall i :: 0 <= i < |p.value| ==> p.value[i] != '&')
  }

  /** Reading a pair's text gives the pair back, and the text has no '&'. */
  lemma TextRoundTrip(p: Param)
    requires Plain(p)
    ensures ParseParam(Text(p)) == p
    ensures '&' !in Text(p)
  {
    FirstSeparator(p.name, p.value, '=');
  }

  /** Reading a rendered list of plain pairs gives the list back. */
  lemma RenderRoundTrip(ps: seq<Param>)
    requires |ps| >= 1
    requires forall i :: 0 <= i < |ps| ==> Plain(ps[i])
    ensures ParseQuery(Render(ps)) == ps
  {
    var ts := Texts(ps);
    forall i | 0 <= i < |ts|
      ensures '&' !in ts[i] && ParseParam(ts[i]) == ps[i]
    {
      TextRoundTrip(ps[i]);
    }
    SplitJoin(ts, '&');
  }

  /** The values of the pairs called `name`, in order. */
  function Values(ps: seq<Param>, name: string): seq<string> {
    if |ps| == 0 then []
    else (if ps[0].name == name then [ps[0].value] else []) + Values(ps[1..], name)
  }

  // ---------------------------------------------------------------------------
  // buildQuery (lines 432-456)

  /** The Solr range filter `level_i:[lo TO hi]`; '+' stands for the space. The
      range is inclusive at both ends. */
  function LevelRange(lo: int, hi: int): string {
    "level_i:[" + IntToString(lo) + "+TO+" + IntToString(hi) + "]"
  }

  /** The local-parameter prefix that tags a filter as `hoot`; the facet field
      is computed with that filter excluded (`{!ex=hoot}`). */
  const HootTag: string := "{!tag=hoot}"

  /** The `i`-th pair `buildQuery` writes. */
  function RequestParam(tree: string, path: string, lvla: int, lvlb: int, i: nat): Param
    requires i < 17
  {
    if i == 0 then Param("q", "ancestor_id_path:" + path)
    else if i == 1 then Param("wt", "json")
    else if i == 2 then Param("indent", "true")
    else if i == 3 then Param("limit", "50")
    else if i == 4 then Param("facet", "true")
    else if i == 5 then Param("fl", "header,id,ancestor_*,level_i")
    else if i == 6 then Param("indent", "true")
    else if i == 7 then Param("fq", "tree:" + tree)
    else if i == 8 then Param("fq", LevelRange(lvla, lvlb + 1))
    else if i == 9 then Param("fq", HootTag + LevelRange(lvla, lvlb))
    else if i == 10 then Param("facet.mincount", "2")
    else if i == 11 then Param("facet.limit", "-1")
    else if i == 12 then Param("sort", "level_i+ASC")
    else if i == 13 then Param("facet.sort", "ancestor_id_path")
    else if i == 14 then Param("facet.field", "{!ex=hoot}ancestor_id_path")
    else if i == 15 then Param("wt", "json")
    else Param("rows", "50")
  }

  /** The pairs `buildQuery` writes, in the order it writes them. */
  function RequestParams(tree: string, path: string, lvla: int, lvlb: int): (ps: seq<Param>)
    ensures |ps| == 17
  {
    seq(17, i requires 0 <= i < 17 => RequestParam(tree, path, lvla, lvlb, i))
  }

  /** `buildQuery(termIndexRoot, tree, path, lvla, lvlb)`, concatenated piece by
      piece as the source writes it; the two levels are numbers, so `lvlb + 1`
      is an addition. */
  function BuildQuery(termIndexRoot: string, tree: string, path: string, lvla: int, lvlb: int): string {
    termIndexRoot + "/select?" +
    "q=ancestor_id_path:" + path +
    "&wt=json&indent=true&limit=50" +
    "&facet=true" +
    "&fl=header,id,ancestor_*,level_i" +
    "&indent=true" +
    "&fq=tree:" + tree +
    "&fq=level_i:[" + IntToString(lvla) + "+TO+" + IntToString(lvlb + 1) + "]" +
    "&fq={!tag=hoot}level_i:[" + IntToString(lvla) + "+TO+" + IntToString(lvlb) + "]" +
    "&facet.mincount=2" +
    "&facet.limit=-1" +
    "&sort=level_i+ASC" +
    "&facet.sort=ancestor_id_path" +
    "&facet.field={!ex=hoot}ancestor_id_path" +
    "&wt=json" +
    "&rows=50"
  }

  /** Appending a pair to a non-empty list appends '&' and its text. */
  lemma RenderStep(ps: seq<Param>, k: nat)
    requires 1 <= k < |ps|
    ensures Render(ps[..k + 1]) == Render(ps[..k]) + "&" + Text(ps[k])
  {
    assert ps[..k + 1] == ps[..k] + [ps[k]];
    assert Texts(ps[..k + 1]) == Texts(ps[..k]) + [Text(ps[k])];
    JoinSnoc(Texts(ps[..k]), Text(ps[k]), '&');
  }

  // The literal pieces of `buildQuery` against the texts of the pairs they hold.

  lemma Piece1()
    ensures "q" + "=" + "ancestor_id_path:" == "q=ancestor_id_path:"
  {
  }

  lemma Piece2()
    ensures "&" + "fq" + "=" + "tree:" == "&fq=tree:"
  {
  }

  lemma Piece3()
    ensures "&" + "fq" + "=" + "level_i:[" == "&fq=level_i:["
  {
  }

  lemma Piece4()
    ensures "&" + "fq" + "=" + HootTag + "level_i:[" == "&fq={!tag=hoot}level_i:["
  {
  }

  lemma Piece5()
    ensures "&" + Text(Param("wt", "json")) + "&" + Text(Param("indent", "true")) +
      "&" + Text(Param("limit", "50")) == "&wt=json&indent=true&limit=50"
  {
  }

  lemma Piece6()
    ensures "&" + Text(Param("facet", "true")) == "&facet=true"
  {
  }

  lemma Piece7()
    ensures "&" + Text(Param("fl", "header,id,ancestor_*,level_i")) == "&fl=header,id,ancestor_*,level_i"
  {
    var l := "&fl=header,id,ancestor_*,level_i";
    Lead(l);
    Piece7Tail();
  }

  lemma Piece7Tail()
    ensures "&fl=header,id,ancestor_*,level_i"[1..] == "fl" + "=" + "header,id,ancestor_*,level_i"
  {
  }

  lemma Piece8()
    ensures "&" + Text(Param("indent", "true")) == "&indent=true"
  {
  }

  lemma Piece9()
    ensures "&" + Text(Param("facet.mincount", "2")) == "&facet.mincount=2"
  {
  }

  lemma Piece10()
    ensures "&" + Text(Param("facet.limit", "-1")) == "&facet.limit=-1"
  {
  }

  lemma Piece11()
    ensures "&" + Text(Param("sort", "level_i+ASC")) == "&sort=level_i+ASC"
  {
  }

  lemma Piece12()
    ensures "&" + Text(Param("facet.sort", "ancestor_id_path")) == "&facet.sort=ancestor_id_path"
  {
  }

  lemma Piece13()
    ensures "&" + Text(Param("wt", "json")) == "&wt=json"
  {
  }

  lemma Piece14()
    ensures "&" + Text(Param("rows", "50")) == "&rows=50"
  {
  }

  lemma Piece15()
    ensures "&" + Text(Param("facet.field", "{!ex=hoot}ancestor_id_path")) ==
      "&facet.field={!ex=hoot}ancestor_id_path"
  {
    var l := "&facet.field={!ex=hoot}ancestor_id_path";
    Lead(l);
    Piece15Tail();
  }

  lemma Piece15Tail()
    ensures "&facet.field={!ex=hoot}ancestor_id_path"[1..] == "facet.field" + "=" + "{!ex=hoot}ancestor_id_path"
  {
  }

  /** A non-empty string is its first character followed by the rest. */
  lemma Lead(s: string)
    requires |s| > 0
    ensures s == [s[0]] + s[1..]
  {
  }

  /** `ps` holds the seventeen pairs of a request, with the level texts `a`
      (lower bound), `b1` (upper bound of the untagged filter) and `b` (upper
      bound of the tagged filter) left symbolic. */
  predicate IsRequest(ps: seq<Param>, tree: string, path: string, a: string, b1: string, b: string) {
    |ps| == 17 &&
    ps[0] == Param("q", "ancestor_id_path:" + path) &&
    ps[1] == Param("wt", "json") &&
    ps[2] == Param("indent", "true") &&
    ps[3] == Param("limit", "50") &&
    ps[4] == Param("facet", "true") &&
    ps[5] == Param("fl", "header,id,ancestor_*,level_i") &&
    ps[6] == Param("indent", "true") &&
    ps[7] == Param("fq", "tree:" + tree) &&
    ps[8] == Param("fq", "level_i:[" + a + "+TO+" + b1 + "]") &&
    ps[9] == Param("fq", HootTag + ("level_i:[" + a + "+TO+" + b + "]")) &&
    ps[10] == Param("facet.mincount", "2") &&
    ps[11] == Param("facet.limit", "-1") &&
    ps[12] == Param("sort", "level_i+ASC") &&
    ps[13] == Param("facet.sort", "ancestor_id_path") &&
    ps[14] == Param("facet.field", "{!ex=hoot}ancestor_id_path") &&
    ps[15] == Param("wt", "json") &&
    ps[16] == Param("rows", "50")
  }

  /** The URL is the `select` handler of the root followed by the rendering of
      the pairs above. */
  lemma BuildQueryRenders(termIndexRoot: string, tree: string, path: string, lvla: int, lvlb: int)
    ensures BuildQuery(termIndexRoot, tree, path, lvla, lvlb) ==
      termIndexRoot + "/select?" + Render(RequestParams(tree, path, lvla, lvlb))
  {
    var ps := RequestParams(tree, path, lvla, lvlb);
    RenderPieces(ps, termIndexRoot, tree, path, IntToString(lvla), IntToString(lvlb + 1), IntToString(lvlb));
  }

  /** The rendering of the pairs of `RequestParams` is the text `buildQuery`
      concatenates after `/select?`, shown in three stretches of pairs. */
  lemma RenderPieces(ps: seq<Param>, termIndexRoot: string, tree: string, path: string, a: string, b1: string, b: string)
    requires IsRequest(ps, tree, path, a, b1, b)
    ensures termIndexRoot + "/select?" + Render(ps) ==
      termIndexRoot + "/select?" + "q=ancestor_id_path:" + path + "&wt=json&indent=true&limit=50" + "&facet=true" + "&fl=header,id,ancestor_*,level_i" + "&indent=true" + "&fq=tree:" + tree + "&fq=level_i:[" + a + "+TO+" + b1 + "]" + "&fq={!tag=hoot}level_i:[" + a + "+TO+" + b + "]" + "&facet.mincount=2" + "&facet.limit=-1" + "&sort=level_i+ASC" + "&facet.sort=ancestor_id_path" + "&facet.field={!ex=hoot}ancestor_id_path" + "&wt=json" + "&rows=50"
  {
    var pre := termIndexRoot + "/select?";
    RenderHead(ps, pre, tree, path, a, b1, b);
    var url := pre + "q=ancestor_id_path:" + path + "&wt=json&indent=true&limit=50" + "&facet=true" + "&fl=header,id,ancestor_*,level_i" + "&indent=true";
    RenderFilters(ps, pre, url, tree, path, a, b1, b);
    url := url + "&fq=tree:" + tree + "&fq=level_i:[" + a + "+TO+" + b1 + "]" + "&fq={!tag=hoot}level_i:[" + a + "+TO+" + b + "]";
    RenderFacets(ps, pre, url, tree, path, a, b1, b);
    assert ps[..17] == ps;
  }

  lemma RenderHead(ps: seq<Param>, pre: string, tree: string, path: string, a: string, b1: string, b: string)
    requires |ps| == 17
    requires ps[0] == Param("q", "ancestor_id_path:" + path)
    requires ps[1] == Param("wt", "json")
    requires ps[2] == Param("indent", "true")
    requires ps[3] == Param("limit", "50")
    requires ps[4] == Param("facet", "true")
    requires ps[5] == Param("fl", "header,id,ancestor_*,level_i")
    requires ps[6] == Param("indent", "true")
    ensures pre + "q=ancestor_id_path:" + path + "&wt=json&indent=true&limit=50" + "&facet=true" + "&fl=header,id,ancestor_*,level_i" + "&indent=true" == pre + Render(ps[..7])
  {
    var url := pre + "q=ancestor_id_path:" + path;
    assert ps[..1] == [ps[0]];
    Piece1();
    assert url == pre + Render(ps[..1]);
    var t1, t2, t3 := "&" + Text(ps[1]), "&" + Text(ps[2]), "&" + Text(ps[3]);
    Extend(ps, 1, pre, url, t1);
    Extend(ps, 2, pre, url + t1, t2);
    Extend(ps, 3, pre, url + t1 + t2, t3);
    Piece5();
    url := url + "&wt=json&indent=true&limit=50";
    Piece6();
    Extend(ps, 4, pre, url, "&facet=true");
    url := url + "&facet=true";
    Piece7();
    Extend(ps, 5, pre, url, "&fl=header,id,ancestor_*,level_i");
    url := url + "&fl=header,id,ancestor_*,level_i";
    Piece8();
    Extend(ps, 6, pre, url, "&indent=true");
    url := url + "&indent=true";
  }

  lemma RenderFilters(ps: seq<Param>, pre: string, url0: string, tree: string, path: string, a: string, b1: string, b: string)
    requires |ps| == 17
    requires url0 == pre + Render(ps[..7])
    requires ps[7] == Param("fq", "tree:" + tree)
    requires ps[8] == Param("fq", "level_i:[" + a + "+TO+" + b1 + "]")
    requires ps[9] == Param("fq", HootTag + ("level_i:[" + a + "+TO+" + b + "]"))
    ensures url0 + "&fq=tree:" + tree + "&fq=level_i:[" + a + "+TO+" + b1 + "]" + "&fq={!tag=hoot}level_i:[" + a + "+TO+" + b + "]" == pre + Render(ps[..10])
  {
    ExtendTree(ps, pre, url0, tree);
    var url := url0 + "&fq=tree:" + tree;
    Piece3();
    assert ps[8] == Param("fq", "" + ("level_i:[" + a + "+TO+" + b1 + "]"));
    ExtendRange(ps, 8, pre, url, "", "&fq=level_i:[", a, b1);
    url := url + "&fq=level_i:[" + a + "+TO+" + b1 + "]";
    Piece4();
    ExtendRange(ps, 9, pre, url, HootTag, "&fq={!tag=hoot}level_i:[", a, b);
  }

  lemma ExtendTree(ps: seq<Param>, pre: string, url: string, tree: string)
    requires |ps| == 17
    requires url == pre + Render(ps[..7])
    requires ps[7] == Param("fq", "tree:" + tree)
    ensures url + "&fq=tree:" + tree == pre + Render(ps[..8])
  {
    Piece2();
    Extend(ps, 7, pre, url, "&fq=tree:" + tree);
  }

  /** One level-range filter, possibly behind a local-parameter prefix. */
  lemma ExtendRange(ps: seq<Param>, k: nat, pre: string, url: string, head: string, lit: string, a: string, hi: string)
    requires 1 <= k < |ps|
    requires url == pre + Render(ps[..k])
    requires ps[k] == Param("fq", head + ("level_i:[" + a + "+TO+" + hi + "]"))
    requires "&" + "fq" + "=" + head + "level_i:[" == lit
    ensures url + lit + a + "+TO+" + hi + "]" == pre + Render(ps[..k + 1])
  {
    Extend(ps, k, pre, url, lit + a + "+TO+" + hi + "]");
  }

  lemma RenderFacets(ps: seq<Param>, pre: string, url0: string, tree: string, path: string, a: string, b1: string, b: string)
    requires |ps| == 17
    requires url0 == pre + Render(ps[..10])
    requires ps[10] == Param("facet.mincount", "2")
    requires ps[11] == Param("facet.limit", "-1")
    requires ps[12] == Param("sort", "level_i+ASC")
    requires ps[13] == Param("facet.sort", "ancestor_id_path")
    requires ps[14] == Param("facet.field", "{!ex=hoot}ancestor_id_path")
    requires ps[15] == Param("wt", "json")
    requires ps[16] == Param("rows", "50")
    ensures url0 + "&facet.mincount=2" + "&facet.limit=-1" + "&sort=level_i+ASC" + "&facet.sort=ancestor_id_path" + "&facet.field={!ex=hoot}ancestor_id_path" + "&wt=json" + "&rows=50" == pre + Render(ps[..17])
  {
    var url := url0;
    Piece9();
    Extend(ps, 10, pre, url, "&facet.mincount=2");
    url := url + "&facet.mincount=2";
    Piece10();
    Extend(ps, 11, pre, url, "&facet.limit=-1");
    url := url + "&facet.limit=-1";
    Piece11();
    Extend(ps, 12, pre, url, "&sort=level_i+ASC");
    url := url + "&sort=level_i+ASC";
    Piece12();
    Extend(ps, 13, pre, url, "&facet.sort=ancestor_id_path");
    url := url + "&facet.sort=ancestor_id_path";
    Piece15();
    Extend(ps, 14, pre, url, "&facet.field={!ex=hoot}ancestor_id_path");
    url := url + "&facet.field={!ex=hoot}ancestor_id_path";
    Piece13();
    Extend(ps, 15, pre, url, "&wt=json");
    url := url + "&wt=json";
    Piece14();
    Extend(ps, 16, pre, url, "&rows=50");
    url := url + "&rows=50";
  }

  /** One step of the rendering: a prefix of the URL followed by one more pair. */
  lemma Extend(ps: seq<Param>, k: nat, pre: string, url: string, piece: string)
    requires 1 <= k < |ps|
    requires url == pre + Render(ps[..k])
    requires piece == "&" + Text(ps[k])
    ensures url + piece == pre + Render(ps[..k + 1])
  {
    RenderStep(ps, k);
  }

  // ---------------------------------------------------------------------------
  // What the server reads from a buildQuery URL

  /** None of the literal pairs of `RequestParams` has a '&' or '=' in its name
      or a '&' in its value, so they all survive the round trip when the tree
      name and the path have no '&'. */
  lemma RequestParamsPlain(tree: string, path: string, lvla: int, lvlb: int)
    requires '&' !in tree && '&' !in path
    ensures forall i :: 0 <= i < 17 ==> Plain(RequestParams(tree, path, lvla, lvlb)[i])
  {
    var ps := RequestParams(tree, path, lvla, lvlb);
    IntToStringIsPlain(lvla);
    IntToStringIsPlain(lvlb);
    IntToStringIsPlain(lvlb + 1);
    PairsPlain(ps, tree, path, IntToString(lvla), IntToString(lvlb + 1), IntToString(lvlb));
  }

  lemma PairsPlain(ps: seq<Param>, tree: string, path: string, a: string, b1: string, b: string)
    requires IsRequest(ps, tree, path, a, b1, b)
    requires '&' !in tree && '&' !in path && '&' !in a && '&' !in b1 && '&' !in b
    ensures forall i :: 0 <= i < 17 ==> Plain(ps[i])
  {
    forall i | 0 <= i < 17
      ensures Plain(ps[i])
    {
      if i == 0 {
        PlainQuery(path);
      } else if i == 7 {
        PlainTree(tree);
      } else if i == 8 {
        PlainRange("", a, b1);
      } else if i == 9 {
        PlainRange(HootTag, a, b);
      }
      else if i == 1 || i == 15 {
        PlainWt();
      }
      else if i == 2 || i == 6 {
        PlainIndent();
      }
      else if i == 3 {
        PlainLimit();
      }
      else if i == 4 {
        PlainFacet();
      }
      else if i == 5 {
        PlainFl();
      }
      else if i == 10 {
        PlainMincount();
      }
      else if i == 11 {
        PlainFacetLimit();
      }
      else if i == 12 {
        PlainSort();
      }
      else if i == 13 {
        PlainFacetSort();
      }
      else if i == 14 {
        PlainFacetField();
      }
      else if i == 16 {
        PlainRows();
      }
    }
  }

  // The pairs of a request survive the round trip.

  lemma PlainQuery(path: string)
    requires '&' !in path
    ensures Plain(Param("q", "ancestor_id_path:" + path))
  {
  }

  lemma PlainTree(tree: string)
    requires '&' !in tree
    ensures Plain(Param("fq", "tree:" + tree))
  {
  }

  lemma PlainRange(head: string, a: string, hi: string)
    requires head == "" || head == HootTag
    requires '&' !in a && '&' !in hi
    ensures Plain(Param("fq", head + ("level_i:[" + a + "+TO+" + hi + "]")))
  {
  }

  lemma PlainWt()
    ensures Plain(Param("wt", "json"))
  {
  }

  lemma PlainIndent()
    ensures Plain(Param("indent", "true"))
  {
  }

  lemma PlainLimit()
    ensures Plain(Param("limit", "50"))
  {
  }

  lemma PlainFacet()
    ensures Plain(Param("facet", "true"))
  {
  }

  lemma PlainFl()
    ensures Plain(Param("fl", "header,id,ancestor_*,level_i"))
  {
  }

  lemma PlainMincount()
    ensures Plain(Param("facet.mincount", "2"))
  {
  }

  lemma PlainFacetLimit()
    ensures Plain(Param("facet.limit", "-1"))
  {
  }

  lemma PlainSort()
    ensures Plain(Param("sort", "level_i+ASC"))
  {
  }

  lemma PlainFacetSort()
    ensures Plain(Param("facet.sort", "ancestor_id_path"))
  {
  }

  lemma PlainFacetField()
    ensures Plain(Param("facet.field", "{!ex=hoot}ancestor_id_path"))
  {
  }

  lemma PlainRows()
    ensures Plain(Param("rows", "50"))
  {
  }

  /** Reading a `buildQuery` URL back: the part before the first '?' is the
      root's `select` handler, and the query string holds exactly the pairs of
      `RequestParams`, in order.  The tree name and path may not contain '&',
      and the root may not contain '?'. */
  lemma BuildQueryRoundTrip(termIndexRoot: string, tree: string, path: string, lvla: int, lvlb: int)
    requires '?' !in termIndexRoot && '&' !in tree && '&' !in path
    ensures var url := BuildQuery(termIndexRoot, tree, path, lvla, lvlb);
      BeforeFirst(url, '?') == termIndexRoot + "/select" &&
      ParseQuery(QueryPart(url)) == RequestParams(tree, path, lvla, lvlb)
  {
    var ps := RequestParams(tree, path, lvla, lvlb);
    BuildQueryRenders(termIndexRoot, tree, path, lvla, lvlb);
    assert termIndexRoot + "/select?" + Render(ps) == (termIndexRoot + "/select") + ['?'] + Render(ps);
    assert '?' !in termIndexRoot + "/select";
    FirstSeparator(termIndexRoot + "/select", Render(ps), '?');
    RequestParamsPlain(tree, path, lvla, lvlb);
    RenderRoundTrip(ps);
  }

  /** Reading the values of one name from position `k` on. */
  lemma ValuesStep(ps: seq<Param>, k: nat, name: string)
    requires k < |ps|
    ensures Values(ps[k..], name) ==
      (if ps[k].name == name then [ps[k].value] else []) + Values(ps[k + 1..], name)
  {
    assert ps[k..][1..] == ps[k + 1..];
  }

  /** The names of the pairs `buildQuery` writes. */
  predicate RequestNames(ps: seq<Param>) {
    |ps| == 17 &&
    ps[0].name == "q" &&
    ps[1].name == "wt" &&
    ps[2].name == "indent" &&
    ps[3].name == "limit" &&
    ps[4].name == "facet" &&
    ps[5].name == "fl" &&
    ps[6].name == "indent" &&
    ps[7].name == "fq" &&
    ps[8].name == "fq" &&
    ps[9].name == "fq" &&
    ps[10].name == "facet.mincount" &&
    ps[11].name == "facet.limit" &&
    ps[12].name == "sort" &&
    ps[13].name == "facet.sort" &&
    ps[14].name == "facet.field" &&
    ps[15].name == "wt" &&
    ps[16].name == "rows"
  }

  /** The three filters of a request, in order. */
  lemma FilterValues(ps: seq<Param>)
    requires RequestNames(ps)
    ensures Values(ps, "fq") == [ps[7].value, ps[8].value, ps[9].value]
  {
    NoFilterBefore(ps);
    NoFilterAfter(ps);
    ValuesStep(ps, 7, "fq");
    ValuesStep(ps, 8, "fq");
    ValuesStep(ps, 9, "fq");
  }

  lemma NoFilterBefore(ps: seq<Param>)
    requires RequestNames(ps)
    ensures Values(ps, "fq") == Values(ps[7..], "fq")
  {
    ValuesStep(ps, 6, "fq");
    ValuesStep(ps, 5, "fq");
    ValuesStep(ps, 4, "fq");
    ValuesStep(ps, 3, "fq");
    ValuesStep(ps, 2, "fq");
    ValuesStep(ps, 1, "fq");
    ValuesStep(ps, 0, "fq");
    assert ps[0..] == ps;
  }

  lemma NoFilterAfter(ps: seq<Param>)
    requires RequestNames(ps)
    ensures Values(ps[10..], "fq") == []
  {
    ValuesStep(ps, 16, "fq");
    ValuesStep(ps, 15, "fq");
    ValuesStep(ps, 14, "fq");
    ValuesStep(ps, 13, "fq");
    ValuesStep(ps, 12, "fq");
    ValuesStep(ps, 11, "fq");
    ValuesStep(ps, 10, "fq");
  }

  /** `Values` keeps exactly the values paired with the name. */
  lemma {:induction false} ValuesMembers(ps: seq<Param>, name: string)
    ensures forall v :: v in Values(ps, name) <==> Param(name, v) in ps
    decreases |ps|
  {
    if |ps| > 0 {
      ValuesMembers(ps[1..], name);
      assert ps == [ps[0]] + ps[1..];
    }
  }

  /** What the server reads from `buildQuery(termIndexRoot, tree, path, lvla,
      lvlb)`: seventeen pairs, the first a query on the ancestor path; the
      filters are the tree, the level window `[lvla, lvlb + 1]` and the window
      `[lvla, lvlb]` tagged `hoot`; facet values need a count of 2; the page
      holds 50 rows. */
  lemma BuildQueryRequest(termIndexRoot: string, tree: string, path: string, lvla: int, lvlb: int)
    requires '?' !in termIndexRoot && '&' !in tree && '&' !in path
    ensures var ps := ParseQuery(QueryPart(BuildQuery(termIndexRoot, tree, path, lvla, lvlb)));
      |ps| == 17 &&
      ps[0] == Param("q", "ancestor_id_path:" + path) &&
      Values(ps, "fq") == ["tree:" + tree, LevelRange(lvla, lvlb + 1), HootTag + LevelRange(lvla, lvlb)] &&
      ps[10] == Param("facet.mincount", "2") &&
      ps[16] == Param("rows", "50")
  {
    BuildQueryRoundTrip(termIndexRoot, tree, path, lvla, lvlb);
    RequestFacts(ParseQuery(QueryPart(BuildQuery(termIndexRoot, tree, path, lvla, lvlb))), tree, path, lvla, lvlb);
  }

  lemma RequestFacts(ps: seq<Param>, tree: string, path: string, lvla: int, lvlb: int)
    requires ps == RequestParams(tree, path, lvla, lvlb)
    ensures |ps| == 17 &&
      ps[0] == Param("q", "ancestor_id_path:" + path) &&
      Values(ps, "fq") == ["tree:" + tree, LevelRange(lvla, lvlb + 1), HootTag + LevelRange(lvla, lvlb)] &&
      ps[10] == Param("facet.mincount", "2") &&
      ps[16] == Param("rows", "50")
  {
    RequestShape(ps, tree, path, lvla, lvlb);
    FilterValues(ps);
  }

  lemma RequestShape(ps: seq<Param>, tree: string, path: string, lvla: int, lvlb: int)
    requires ps == RequestParams(tree, path, lvla, lvlb)
    ensures RequestNames(ps)
    ensures ps[0] == Param("q", "ancestor_id_path:" + path)
    ensures ps[7].value == "tree:" + tree
    ensures ps[8].value == LevelRange(lvla, lvlb + 1)
    ensures ps[9].value == HootTag + LevelRange(lvla, lvlb)
    ensures ps[10] == Param("facet.mincount", "2") && ps[16] == Param("rows", "50")
  {
  }

  // ---------------------------------------------------------------------------
  // Reading the numbers back

  /** The bounds of a level range sit between "level_i:[" and the first '+',
      and between "+TO+" and the closing bracket. */
  lemma LevelRangeParts(lo: int, hi: int)
    ensures |LevelRange(lo, hi)| >= 9
    ensures var rest := LevelRange(lo, hi)[9..];
      BeforeFirst(rest, '+') == IntToString(lo) &&
      AfterFirst(rest, '+') == "TO+" + IntToString(hi) + "]"
  {
    var a, b := IntToString(lo), IntToString(hi);
    IntToStringIsPlain(lo);
    var rest := LevelRange(lo, hi)[9..];
    assert rest == a + "+TO+" + b + "]";
    assert rest == a + ['+'] + ("TO+" + b + "]");
    FirstSeparator(a, "TO+" + b + "]", '+');
  }

  /** Distinct level windows give distinct filters. */
  lemma LevelRangeInjective(lo: int, hi: int, lo': int, hi': int)
    requires LevelRange(lo, hi) == LevelRange(lo', hi')
    ensures lo == lo' && hi == hi'
  {
    LevelRangeParts(lo, hi);
    LevelRangeParts(lo', hi');
    var t, t' := "TO+" + IntToString(hi) + "]", "TO+" + IntToString(hi') + "]";
    assert t == t';
    assert t[3..|t| - 1] == IntToString(hi);
    assert t'[3..|t'| - 1] == IntToString(hi');
    IntToStringRoundTrip(lo);
    IntToStringRoundTrip(lo');
    IntToStringRoundTrip(hi);
    IntToStringRoundTrip(hi');
  }

  /** A `buildQuery` URL determines every argument it was built from: the
      root, the tree name, the path and both levels. */
  lemma BuildQueryInjective(root: string, tree: string, path: string, lvla: int, lvlb: int,
                            root': string, tree': string, path': string, lvla': int, lvlb': int)
    requires '?' !in root && '&' !in tree && '&' !in path
    requires '?' !in root' && '&' !in tree' && '&' !in path'
    requires BuildQuery(root, tree, path, lvla, lvlb) == BuildQuery(root', tree', path', lvla', lvlb')
    ensures root == root' && tree == tree' && path == path' && lvla == lvla' && lvlb == lvlb'
  {
    BuildQueryRoundTrip(root, tree, path, lvla, lvlb);
    BuildQueryRoundTrip(root', tree', path', lvla', lvlb');
    var url := BuildQuery(root, tree, path, lvla, lvlb);
    SameRequest(ParseQuery(QueryPart(url)), tree, path, lvla, lvlb, tree', path', lvla', lvlb');
    SuffixCancel(root, root', "/select");
  }

  /** A list of pairs that is the request for two sets of arguments is the
      request for one. */
  lemma SameRequest(ps: seq<Param>, tree: string, path: string, lvla: int, lvlb: int,
                    tree': string, path': string, lvla': int, lvlb': int)
    requires ps == RequestParams(tree, path, lvla, lvlb)
    requires ps == RequestParams(tree', path', lvla', lvlb')
    ensures tree == tree' && path == path' && lvla == lvla' && lvlb == lvlb'
  {
    RequestShape(ps, tree, path, lvla, lvlb);
    RequestShape(ps, tree', path', lvla', lvlb');
    PrefixCancel("ancestor_id_path:", path, path');
    PrefixCancel("tree:", tree, tree');
    PrefixCancel(HootTag, LevelRange(lvla, lvlb), LevelRange(lvla', lvlb'));
    LevelRangeInjective(lvla, lvlb, lvla', lvlb');
  }

  lemma PrefixCancel(x: string, a: string, b: string)
    requires x + a == x + b
    ensures a == b
  {
    assert a == (x + a)[|x|..];
  }

  lemma SuffixCancel(a: string, b: string, y: string)
    requires a + y == b + y
    ensures a == b
  {
    assert a == (a + y)[..|a|];
  }

  // ---------------------------------------------------------------------------
  // The two callers of buildQuery

  /** The plugin settings the requests read (`termindex_root`, `kmindex_root`,
      `type`, `baseUrl`). */
  datatype Settings = Settings(termindexRoot: string, kmindexRoot: string, tree: string, baseUrl: string)

  /** The Solr server both default indexes live on. */
  const SolrHost: string := "http://kidx.shanti.virginia.edu"

  /** The default settings (lines 18-23). */
  const Defaults: Settings := Settings(
    SolrHost + "/solr/termindex-dev-update",
    SolrHost + "/solr/kmindex-dev",
    "places",
    "http://subjects.kmaps.virginia.edu/")

  /** Settings whose values a request can carry and be read back from: no '?'
      in the root (the query string starts at the first one) and no '&' in the
      tree name. */
  predicate UsableSettings(settings: Settings) {
    '?' !in settings.termindexRoot && '&' !in settings.tree
  }

  /** The URL of the first page (line 135): the subtree under id 13735, levels 1
      and 2. JavaScript renders the number 13735 as its decimal text. */
  function InitialSource(settings: Settings): string {
    BuildQuery(settings.termindexRoot, settings.tree, IntToString(13735), 1, 2)
  }

  /** The URL `lazyLoad` asks for when `node` is expanded (lines 215-225): both
      levels are one below the node's. */
  function LazyLoad(node: Node, settings: Settings): string {
    BuildQuery(settings.termindexRoot, settings.tree, node.path, 1 + node.level, 1 + node.level)
  }

  /** Expanding a node at level L sends the query `ancestor_id_path:<path>` on
      its tree with the untagged filter `level_i:[L+1 TO L+2]` and the
      `hoot`-tagged filter `level_i:[L+1 TO L+1]`.  Solr intersects the filters,
      so the documents come from the children's level only; the facet field
      excludes the tagged filter, so its counts cover the children's and the
      grandchildren's levels. */
  lemma LazyLoadRequest(node: Node, settings: Settings)
    requires UsableSettings(settings) && '&' !in node.path
    ensures var ps := ParseQuery(QueryPart(LazyLoad(node, settings)));
      var child := 1 + node.level;
      |ps| == 17 &&
      ps[0] == Param("q", "ancestor_id_path:" + node.path) &&
      Values(ps, "fq") == ["tree:" + settings.tree, LevelRange(child, child + 1), HootTag + LevelRange(child, child)]
    ensures BeforeFirst(LazyLoad(node, settings), '?') == settings.termindexRoot + "/select"
  {
    var url := LazyLoad(node, settings);
    assert url == BuildQuery(settings.termindexRoot, settings.tree, node.path, 1 + node.level, 1 + node.level);
    OneLevelRequest(settings.termindexRoot, settings.tree, node.path, 1 + node.level);
  }

  /** A request whose two levels coincide. */
  lemma OneLevelRequest(root: string, tree: string, path: string, l: int)
    requires '?' !in root && '&' !in tree && '&' !in path
    ensures var ps := ParseQuery(QueryPart(BuildQuery(root, tree, path, l, l)));
      |ps| == 17 &&
      ps[0] == Param("q", "ancestor_id_path:" + path) &&
      Values(ps, "fq") == ["tree:" + tree, LevelRange(l, l + 1), HootTag + LevelRange(l, l)]
    ensures BeforeFirst(BuildQuery(root, tree, path, l, l), '?') == root + "/select"
  {
    BuildQueryRequest(root, tree, path, l, l);
    BuildQueryRoundTrip(root, tree, path, l, l);
  }

  /** The first page queries below id 13735 with the untagged filter
      `level_i:[1 TO 3]` and the `hoot`-tagged filter `level_i:[1 TO 2]`: its
      documents come from levels 1 and 2, and its facet counts cover levels 1
      to 3. */
  lemma InitialSourceRequest(settings: Settings)
    requires UsableSettings(settings)
    ensures var ps := ParseQuery(QueryPart(InitialSource(settings)));
      |ps| == 17 &&
      ps[0] == Param("q", "ancestor_id_path:" + IntToString(13735)) &&
      Values(ps, "fq") == ["tree:" + settings.tree, LevelRange(1, 3), HootTag + LevelRange(1, 2)]
    ensures BeforeFirst(InitialSource(settings), '?') == settings.termindexRoot + "/select"
  {
    IntToStringIsPlain(13735);
    BuildQueryRequest(settings.termindexRoot, settings.tree, IntToString(13735), 1, 2);
    BuildQueryRoundTrip(settings.termindexRoot, settings.tree, IntToString(13735), 1, 2);
  }

  /** The id in the first query is the text "13735". */
  lemma InitialId()
    ensures IntToString(13735) == "13735"
  {
  }

  /** The default settings can be carried by a request: the default term index
      root has no '?' and the default tree name no '&'. */
  lemma DefaultsUsable()
    ensures UsableSettings(Defaults)
  {
    var host, tail := SolrHost, "/solr/termindex-dev-update";
    forall i | 0 <= i < |host| ensures host[i] != '?' { }
    forall i | 0 <= i < |tail| ensures tail[i] != '?' { }
    assert Defaults.termindexRoot == host + tail;
  }

  /** With the default settings the first page asks the term index for the
      `places` tree below 13735. */
  lemma DefaultInitialRequest()
    ensures var ps := ParseQuery(QueryPart(InitialSource(Defaults)));
      |ps| == 17 &&
      ps[0] == Param("q", "ancestor_id_path:" + "13735") &&
      Values(ps, "fq") == ["tree:" + "places", LevelRange(1, 3), HootTag + LevelRange(1, 2)]
    ensures BeforeFirst(InitialSource(Defaults), '?') == Defaults.termindexRoot + "/select"
  {
    DefaultsUsable();
    InitialSourceRequest(Defaults);
    InitialId();
  }
}
