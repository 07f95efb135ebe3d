/** The breadcrumbs of `src/components/layout/header.tsx`: one crumb per non-empty path
    segment, each linking to the path up to and including its segment, except the last,
    which is plain text. */
module Header {
  import Text
  import Seqs = Lists

  /** `pathNameMap`: readable names for the known segments. */
  const PathNames: map<string, string> := map[
    "dashboard" := "Dashboard",
    "staff" := "Staff",
    "pricing" := "Pricing",
    "clients" := "Clients",
    "schedule" := "Schedule",
    "settings" := "Settings",
    "help" := "Help & Support"]

  /** `pathname.split('/').filter(Boolean)`. */
  function Segments(path: string): (segments: seq<string>)
    ensures forall i :: 0 <= i < |segments| ==> segments[i] != "" && '/' !in segments[i]
  {
    Seqs.FilterSpec(Text.Split(path, '/'), (s: string) => s != "");
    Seqs.Filter(Text.Split(path, '/'), (s: string) => s != "")
  }

  /** One breadcrumb: where it links to, what it shows, and whether it is a link. */
  datatype Crumb = Crumb(href: string, name: string, isLink: bool)

  /** `'/' + segments.slice(0, index + 1).join('/')`. */
  function Href(segments: seq<string>, index: nat): string
    requires index < |segments|
  {
    "/" + Text.Join(segments[..index + 1], '/')
  }

  /** `pathNameMap[segment] || segment`; every name in the map is non-empty. */
  function Name(segment: string): (name: string)
    ensures segment in PathNames ==> name == PathNames[segment]
    ensures segment !in PathNames ==> name == segment
  {
    if segment in PathNames then PathNames[segment] else segment
  }

  /** The crumbs `Breadcrumbs` renders for a path. */
  function Breadcrumbs(path: string): (crumbs: seq<Crumb>)
    ensures |crumbs| == |Segments(path)|
    ensures forall i :: 0 <= i < |crumbs| ==> (crumbs[i].isLink <==> i < |crumbs| - 1)
  {
    var segments := Segments(path);
    seq(|segments|, i requires 0 <= i < |segments| =>
      Crumb(Href(segments, i), Name(segments[i]), i != |segments| - 1))
  }

  /** Each crumb's link extends the previous one by a slash and its own segment, so the
      crumbs lead from the outermost section inward. */
  lemma {:induction false} HrefExtends(segments: seq<string>, i: nat)
    requires i + 1 < |segments|
    ensures Href(segments, i + 1) == Href(segments, i) + "/" + segments[i + 1]
    ensures Href(segments, i) < Href(segments, i + 1)
  {
    assert segments[..i + 2] == segments[..i + 1] + [segments[i + 1]];
    Text.JoinSnoc(segments[..i + 1], segments[i + 1], '/');
  }

  /** A path in canonical form (a slash before each of its non-empty, slash-free
      segments) splits back into exactly those segments. */
  lemma {:induction false} SegmentsOfCanonical(segments: seq<string>)
    requires |segments| >= 1
    requires forall i :: 0 <= i < |segments| ==> segments[i] != "" && '/' !in segments[i]
    ensures Segments("/" + Text.Join(segments, '/')) == segments
  {
    var path := "/" + Text.Join(segments, '/');
    assert path == "" + ['/'] + Text.Join(segments, '/');
    Text.SplitConcat("", Text.Join(segments, '/'), '/');
    Text.SplitJoin(segments, '/');
    var pieces := Text.Split(path, '/');
    assert pieces == [""] + segments;
    Seqs.FilterAll(segments, (s: string) => s != "");
  }

  /** For a path in canonical form the last crumb names the path itself and is plain
      text. */
  lemma {:induction false} LastCrumbIsPath(segments: seq<string>)
    requires |segments| >= 1
    requires forall i :: 0 <= i < |segments| ==> segments[i] != "" && '/' !in segments[i]
    ensures var path := "/" + Text.Join(segments, '/');
            Segments(path) == segments
            && Breadcrumbs(path)[|segments| - 1] == Crumb(path, Name(segments[|segments| - 1]), false)
  {
    var path := "/" + Text.Join(segments, '/');
    SegmentsOfCanonical(segments);
    var last := |segments| - 1;
    assert segments[..last + 1] == segments;
    assert Href(segments, last) == path;
    assert Breadcrumbs(path)[last] == Crumb(Href(segments, last), Name(segments[last]), false);
  }
}
