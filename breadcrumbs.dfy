/** Breadcrumb links for a path browsed inside a project's tree
    (`bread_link` in apps/projects/views.py). */
module Breadcrumbs {
  import opened Wrappers
  import opened PyStr

  /** One breadcrumb: the text shown and the url it points to. */
  datatype Link = Link(name: string, url: string)

  /** The list of url parts every breadcrumb url starts from. */
  function RootParts(pname: string): seq<string> {
    ["/projects", pname, "tree"]
  }

  /** The url of the project's tree root, the first breadcrumb. */
  function RootUrl(pname: string): string {
    Join('/', RootParts(pname))
  }

  /** The tree root's url spelled out. */
  lemma RootUrlSpelled(pname: string)
    ensures RootUrl(pname) == "/projects/" + pname + "/tree"
  {
    var parts := RootParts(pname);
    assert Join('/', parts[2..]) == "tree";
    assert Join('/', parts[1..]) == pname + ['/'] + "tree";
    assert "/projects" + ['/'] + (pname + ['/'] + "tree") == "/projects/" + pname + "/tree";
  }

  /** The segments of a browsed path: one trailing `/` is dropped, the rest is
      split on `/`. */
  function Segments(fpath: string): seq<string> {
    Split(StripOneTrailing(fpath, '/'), '/')
  }

  /** Links for the segments `segs` below the url `base`: each url is the
      previous one (or `base`) extended by `/` and the segment. */
  function Trail(base: string, segs: seq<string>): (r: seq<Link>)
    ensures |r| == |segs|
    decreases |segs|
  {
    if segs == [] then []
    else
      var url := base + "/" + segs[0];
      [Link(segs[0], url)] + Trail(url, segs[1..])
  }

  /** The breadcrumbs of `fpath` in project `pname`: none when no path was given
      (`None`) or it is empty, otherwise the tree root followed by one link per
      segment. */
  function Crumbs(pname: string, fpath: Option<string>): seq<Link> {
    if fpath.None? || fpath.value == "" then []
    else [Link(pname, RootUrl(pname))] + Trail(RootUrl(pname), Segments(fpath.value))
  }

  /** `bread_link(pname, fpath)`: grows the list of url parts one segment at a
      time and appends a link whose url joins the parts seen so far. */
  method BreadLink(pname: string, fpath: Option<string>) returns (ret: seq<Link>)
    ensures ret == Crumbs(pname, fpath)
  {
    ret := [];
    if fpath.None? || fpath.value == "" {
      return;
    }
    var path := fpath.value;
    path := if EndsWith(path, '/') then path[..|path| - 1] else path;
    var paths := Split(path, '/');
    var links := RootParts(pname);
    ret := [Link(pname, Join('/', links))] + ret;
    ghost var base := RootUrl(pname);
    for i := 0 to |paths|
      invariant links == RootParts(pname) + paths[..i]
      invariant ret == [Link(pname, base)] + Trail(base, paths)[..i]
    {
      links := links + [paths[i]];
      var blink := Join('/', links);
      assert links == RootParts(pname) + paths[..i + 1] by {
        assert paths[..i + 1] == paths[..i] + [paths[i]];
      }
      JoinedPartsAreTrail(pname, paths, i);
      ret := ret + [Link(paths[i], blink)];
      assert Trail(base, paths)[..i + 1] == Trail(base, paths)[..i] + [Trail(base, paths)[i]];
    }
    assert Trail(base, paths)[..|paths|] == Trail(base, paths);
  }

  /** The url `bread_link` builds by joining the root parts and the first
      `i + 1` segments is the url of link `i` of the trail. */
  lemma JoinedPartsAreTrail(pname: string, segs: seq<string>, i: nat)
    requires i < |segs|
    ensures Trail(RootUrl(pname), segs)[i] == Link(segs[i], Join('/', RootParts(pname) + segs[..i + 1]))
  {
    JoinAppend('/', RootParts(pname), segs[..i + 1]);
    TrailAt(RootUrl(pname), segs, i);
  }

  /** Entry `k` below `base` names segment `k`, and its url is `base`, a `/`
      and the first `k + 1` segments joined by `/`. */
  lemma {:induction false} TrailAt(base: string, segs: seq<string>, k: nat)
    requires k < |segs|
    ensures Trail(base, segs)[k] == Link(segs[k], base + "/" + Join('/', segs[..k + 1]))
    decreases k
  {
    var url := base + "/" + segs[0];
    if k == 0 {
      assert Join('/', segs[..1]) == segs[0];
    } else {
      TrailAt(url, segs[1..], k - 1);
      var prefix := segs[..k + 1];
      assert segs[1..][..k] == prefix[1..];
      assert Join('/', prefix) == segs[0] + "/" + Join('/', prefix[1..]);
    }
  }

  /** Appending one segment appends one link, which extends the url of the
      last link (or `base` when there was none). */
  lemma {:induction false} TrailSnoc(base: string, segs: seq<string>, s: string)
    ensures Trail(base, segs + [s]) ==
      Trail(base, segs) + [Link(s, (if segs == [] then base else Trail(base, segs)[|segs| - 1].url) + "/" + s)]
    decreases |segs|
  {
    if segs != [] {
      var url := base + "/" + segs[0];
      assert (segs + [s])[1..] == segs[1..] + [s];
      TrailSnoc(url, segs[1..], s);
    }
  }

  /** No path, or an empty one, gives no breadcrumbs; any other path gives at
      least the tree root. */
  lemma NoPathNoCrumbs(pname: string, fpath: Option<string>)
    ensures Crumbs(pname, fpath) == [] <==> fpath.None? || fpath.value == ""
  {
  }

  /** For a non-empty path: one more link than there are segments, the tree
      root first, then link `k + 1` names segment `k` and extends the url of
      link `k` by `/` and that segment. */
  lemma {:induction false} CrumbsShape(pname: string, fpath: string)
    requires fpath != ""
    ensures var r := Crumbs(pname, Some(fpath));
      var segs := Segments(fpath);
      |r| == |segs| + 1 &&
      r[0] == Link(pname, RootUrl(pname)) &&
      forall k :: 0 <= k < |segs| ==> r[k + 1] == Link(segs[k], r[k].url + "/" + segs[k])
  {
    var r := Crumbs(pname, Some(fpath));
    var segs := Segments(fpath);
    var base := RootUrl(pname);
    forall k | 0 <= k < |segs|
      ensures r[k + 1] == Link(segs[k], r[k].url + "/" + segs[k])
    {
      TrailAt(base, segs, k);
      if k > 0 {
        TrailAt(base, segs, k - 1);
        assert segs[..k + 1] == segs[..k] + [segs[k]];
        JoinAppend('/', segs[..k], [segs[k]]);
      } else {
        assert Join('/', segs[..1]) == segs[0];
      }
    }
  }

  /** The number of links is the number of `/` in the path, after its one
      trailing `/` is dropped, plus two. */
  lemma CrumbCount(pname: string, fpath: string)
    requires fpath != ""
    ensures |Crumbs(pname, Some(fpath))| == multiset(StripOneTrailing(fpath, '/'))['/'] + 2
  {
    SplitCount(StripOneTrailing(fpath, '/'), '/');
  }

  /** Every url is a proper prefix of every later one. */
  lemma {:induction false} CrumbUrlsGrow(pname: string, fpath: string, i: nat, j: nat)
    requires fpath != ""
    requires i < j < |Crumbs(pname, Some(fpath))|
    ensures Crumbs(pname, Some(fpath))[i].url < Crumbs(pname, Some(fpath))[j].url
    decreases j - i
  {
    var r := Crumbs(pname, Some(fpath));
    CrumbsShape(pname, fpath);
    assert r[j].url == r[j - 1].url + "/" + Segments(fpath)[j - 1];
    if i < j - 1 {
      CrumbUrlsGrow(pname, fpath, i, j - 1);
    }
  }

  /** The last url is the tree root, a `/` and the browsed path without its
      trailing `/`: splitting and re-joining the path loses nothing. */
  lemma LastUrlRoundTrip(pname: string, fpath: string)
    requires fpath != ""
    ensures var r := Crumbs(pname, Some(fpath));
      r[|r| - 1].url == RootUrl(pname) + "/" + StripOneTrailing(fpath, '/')
  {
    var stripped := StripOneTrailing(fpath, '/');
    var segs := Split(stripped, '/');
    var base := RootUrl(pname);
    var trail := Trail(base, segs);
    assert Crumbs(pname, Some(fpath)) == [Link(pname, base)] + trail;
    TrailAt(base, segs, |segs| - 1);
    assert segs[..|segs|] == segs;
    SplitThenJoin(stripped, '/');
    assert trail[|segs| - 1].url == base + "/" + stripped;
  }

  /** One trailing `/` is ignored: `a/b/` browses like `a/b`. */
  lemma TrailingSlashIgnored(pname: string, s: string)
    requires s != "" && !EndsWith(s, '/')
    ensures Crumbs(pname, Some(s + "/")) == Crumbs(pname, Some(s))
  {
  }

  /** Only one trailing `/` is dropped: `a/b//` gets one more link than `a/b`,
      named by the empty segment, whose url ends in `/`. */
  lemma DoubledTrailingSlash(pname: string, s: string)
    requires s != "" && !EndsWith(s, '/')
    ensures var r := Crumbs(pname, Some(s));
      Crumbs(pname, Some(s + "//")) == r + [Link("", r[|r| - 1].url + "/")]
  {
    var segs := Split(s, '/');
    var base := RootUrl(pname);
    var once := s + ['/'];
    assert StripOneTrailing(s + "//", '/') == once by {
      var path := s + "//";
      assert path[..|path| - 1] == once;
    }
    assert Split(once, '/') == segs + [""] by {
      assert once == s + ['/'] + "";
      SplitAround(s, "", '/');
    }
    assert StripOneTrailing(s, '/') == s;
    TrailSnoc(base, segs, "");
    var last := Trail(base, segs)[|segs| - 1].url;
    assert last + "/" + "" == last + "/";
  }

  /** The path `/` gives the tree root and one link with an empty name whose
      url is the root url followed by `/`. */
  lemma SlashOnly(pname: string)
    ensures Crumbs(pname, Some("/")) ==
      [Link(pname, RootUrl(pname)), Link("", RootUrl(pname) + "/")]
  {
    var base := RootUrl(pname);
    assert Segments("/") == [""];
    assert base + "/" + "" == base + "/";
    assert Trail(base, [""]) == [Link("", base + "/" + "")] + Trail(base + "/" + "", [""][1..]);
  }

  /** A path of three segments `a/b/c` gives the tree root and three links
      whose urls grow by one segment at a time. */
  lemma ThreeSegments(pname: string, a: string, b: string, c: string)
    requires '/' !in a && '/' !in b && '/' !in c && c != ""
    ensures var root := RootUrl(pname);
      Crumbs(pname, Some(a + "/" + b + "/" + c)) == [
        Link(pname, root),
        Link(a, root + "/" + a),
        Link(b, root + "/" + a + "/" + b),
        Link(c, root + "/" + a + "/" + b + "/" + c)]
  {
    var path := a + "/" + b + "/" + c;
    ThreeSegmentsSplit(a, b, c);
    CrumbsShape(pname, path);
    var r := Crumbs(pname, Some(path));
    var root := RootUrl(pname);
    assert r[1].url == root + "/" + a;
    assert r[2].url == root + "/" + a + "/" + b;
    assert r[3].url == root + "/" + a + "/" + b + "/" + c;
    assert r == [r[0], r[1], r[2], r[3]];
  }

  lemma ThreeSegmentsSplit(a: string, b: string, c: string)
    requires '/' !in a && '/' !in b && '/' !in c && c != ""
    ensures Segments(a + "/" + b + "/" + c) == [a, b, c]
  {
    var path := a + "/" + b + "/" + c;
    assert path[|path| - 1] == c[|c| - 1];
    assert StripOneTrailing(path, '/') == path;
    JoinThenSplit('/', [a, b, c]);
    assert Join('/', [a, b, c]) == path by {
      assert [a, b, c][1..] == [b, c];
      assert [b, c][1..] == [c];
      assert Join('/', [b, c]) == b + ['/'] + c;
      assert a + ['/'] + (b + ['/'] + c) == path;
    }
  }
}
