/** The route both REST handlers register with Express,
      /^\/api((?:\/(?:[a-z-]+)(?:\/(?:[a-f0-9-]+))?)+)$/i
    as a grammar of path segments (`Segment`, `Render`) and a matcher
    (`Route`) that splits the path at its slashes and parses the pieces.
    `Route` returns the regex's capture group, the endpoint. */
module RestRoute {
  import opened Js

  /** [a-z-] under the `i` flag. */
  predicate NameChar(c: char)
  {
    'a' <= c <= 'z' || 'A' <= c <= 'Z' || c == '-'
  }

  /** [a-f0-9-] under the `i` flag. */
  predicate IdChar(c: char)
  {
    '0' <= c <= '9' || 'a' <= c <= 'f' || 'A' <= c <= 'F' || c == '-'
  }

  predicate IsName(p: string)
  {
    |p| > 0 && forall i :: 0 <= i < |p| ==> NameChar(p[i])
  }

  predicate IsId(p: string)
  {
    |p| > 0 && forall i :: 0 <= i < |p| ==> IdChar(p[i])
  }

  /** One repetition of the group: "/" name, optionally followed by "/" id. */
  datatype Segment = Segment(name: string, id: Option<string>)

  predicate ValidSegments(segs: seq<Segment>)
  {
    forall i :: 0 <= i < |segs| ==>
      IsName(segs[i].name) && (segs[i].id.Some? ==> IsId(segs[i].id.value))
  }

  /** The names and ids of the segments, in order. */
  function PartsOf(segs: seq<Segment>): seq<string>
  {
    if segs == [] then []
    else [segs[0].name] + (if segs[0].id.Some? then [segs[0].id.value] else []) + PartsOf(segs[1..])
  }

  /** "/" before each part. */
  function Slashed(parts: seq<string>): string
  {
    if parts == [] then "" else "/" + parts[0] + Slashed(parts[1..])
  }

  /** The text the segments stand for. */
  function Render(segs: seq<Segment>): string
  {
    Slashed(PartsOf(segs))
  }

  predicate NoSlash(p: string)
  {
    forall i :: 0 <= i < |p| ==> p[i] != '/'
  }

  /** Length of the longest prefix of `s` without a slash. */
  function NextSlash(s: string): (k: nat)
    ensures k <= |s|
    ensures NoSlash(s[..k])
    ensures k < |s| ==> s[k] == '/'
  {
    if s == [] || s[0] == '/' then 0 else 1 + NextSlash(s[1..])
  }

  /** Splits "/p1/p2/.../pn" into [p1, ..., pn]; text not starting with a
      slash has no such form. */
  function SplitSlashed(t: string): (r: Option<seq<string>>)
    ensures r.Some? ==> Slashed(r.value) == t
    ensures r.Some? ==> forall i :: 0 <= i < |r.value| ==> NoSlash(r.value[i])
    decreases |t|
  {
    if t == [] then Some([])
    else if t[0] != '/' then None
    else
      var k := 1 + NextSlash(t[1..]);
      match SplitSlashed(t[k..])
      case None => None
      case Some(rest) =>
        var part := t[1..k];
        assert t[1..][..k - 1] == part;
        assert NoSlash(part);
        assert t == "/" + part + t[k..];
        var ps := [part] + rest;
        assert ps[0] == part && ps[1..] == rest;
        Some(ps)
  }

  /** Parses the parts into segments. A part that could be either a name or
      an id starts a new segment, which leaves every later part the most
      choice. */
  function ParseParts(ps: seq<string>): (r: Option<seq<Segment>>)
    ensures r.Some? ==> ValidSegments(r.value) && PartsOf(r.value) == ps
    decreases |ps|
  {
    if ps == [] then Some([])
    else if !IsName(ps[0]) then None
    else if |ps| >= 2 && !IsName(ps[1]) && IsId(ps[1]) then
      match ParseParts(ps[2..])
      case None => None
      case Some(rest) =>
        assert ps == [ps[0]] + [ps[1]] + ps[2..];
        Some([Segment(ps[0], Some(ps[1]))] + rest)
    else
      match ParseParts(ps[1..])
      case None => None
      case Some(rest) =>
        assert ps == [ps[0]] + ps[1..];
        Some([Segment(ps[0], None)] + rest)
  }

  /** Whether the route matches `path` and, if so, its capture: everything
      after the case-insensitive "/api" prefix. */
  function Route(path: string): (r: Option<string>)
    ensures r.Some? ==> |path| >= 4 && r.value == path[4..]
  {
    if |path| >= 4 && ToLower(path[..4]) == "/api" then
      match SplitSlashed(path[4..])
      case None => None
      case Some(ps) => if |ps| > 0 && ParseParts(ps).Some? then Some(path[4..]) else None
    else None
  }

  // ---- the matcher decides exactly the regex's language ----

  lemma {:induction false} NextSlashAfter(p: string, s: string)
    requires NoSlash(p)
    requires s == [] || s[0] == '/'
    ensures NextSlash(p + s) == |p|
    decreases |p|
  {
    if p != [] {
      assert (p + s)[1..] == p[1..] + s;
      NextSlashAfter(p[1..], s);
    } else {
      assert p + s == s;
    }
  }

  lemma SlashedStart(parts: seq<string>)
    ensures Slashed(parts) == [] || Slashed(parts)[0] == '/'
  {
  }

  lemma {:induction false} SplitSlashedRoundTrip(parts: seq<string>)
    requires forall i :: 0 <= i < |parts| ==> NoSlash(parts[i])
    ensures SplitSlashed(Slashed(parts)) == Some(parts)
    decreases |parts|
  {
    if parts != [] {
      var p, rest := parts[0], Slashed(parts[1..]);
      var t := Slashed(parts);
      assert t == "/" + (p + rest);
      SlashedStart(parts[1..]);
      NextSlashAfter(p, rest);
      var k := 1 + |p|;
      assert t[1..] == p + rest;
      assert NextSlash(t[1..]) == |p|;
      assert t[1..k] == p;
      assert t[k..] == rest;
      SplitSlashedRoundTrip(parts[1..]);
      assert [p] + parts[1..] == parts;
    }
  }

  lemma {:induction false} PartsOfValid(segs: seq<Segment>)
    requires ValidSegments(segs)
    ensures |PartsOf(segs)| >= |segs|
    ensures forall i :: 0 <= i < |PartsOf(segs)| ==> IsName(PartsOf(segs)[i]) || IsId(PartsOf(segs)[i])
    ensures segs != [] ==> PartsOf(segs)[0] == segs[0].name
  {
    if segs != [] {
      PartsOfValid(segs[1..]);
    }
  }

  lemma {:induction false} ParsePartsComplete(segs: seq<Segment>)
    requires ValidSegments(segs)
    ensures ParseParts(PartsOf(segs)).Some?
    decreases |PartsOf(segs)|
  {
    if segs != [] {
      var s, rest := segs[0], segs[1..];
      var ps := PartsOf(segs);
      PartsOfValid(rest);
      if s.id.None? {
        assert ps == [s.name] + PartsOf(rest);
        assert ps[1..] == PartsOf(rest);
        if |ps| >= 2 {
          assert ps[1] == rest[0].name;
        }
        ParsePartsComplete(rest);
      } else {
        var i := s.id.value;
        assert ps == [s.name, i] + PartsOf(rest);
        if IsName(i) {
          var segs' := [Segment(i, None)] + rest;
          assert segs'[1..] == rest;
          assert PartsOf(segs') == [i] + PartsOf(rest) == ps[1..];
          ParsePartsComplete(segs');
        } else {
          assert ps[2..] == PartsOf(rest);
          ParsePartsComplete(rest);
        }
      }
    }
  }

  lemma {:induction false} NamesAndIdsHaveNoSlash(segs: seq<Segment>)
    requires ValidSegments(segs)
    ensures forall i :: 0 <= i < |PartsOf(segs)| ==> NoSlash(PartsOf(segs)[i])
  {
    PartsOfValid(segs);
    forall i | 0 <= i < |PartsOf(segs)|
      ensures NoSlash(PartsOf(segs)[i])
    {
      var p := PartsOf(segs)[i];
      assert IsName(p) || IsId(p);
    }
  }

  /** Every non-empty run of valid segments after a case-insensitive "/api"
      matches, and the capture is the segments' text. */
  lemma RouteComplete(prefix: string, segs: seq<Segment>)
    requires ToLower(prefix) == "/api"
    requires |segs| > 0 && ValidSegments(segs)
    ensures Route(prefix + Render(segs)) == Some(Render(segs))
  {
    var path := prefix + Render(segs);
    assert path[..4] == prefix && path[4..] == Render(segs);
    NamesAndIdsHaveNoSlash(segs);
    SplitSlashedRoundTrip(PartsOf(segs));
    PartsOfValid(segs);
    ParsePartsComplete(segs);
  }

  /** The segments a matching path parses into. */
  function Segments(path: string): (segs: seq<Segment>)
    requires Route(path).Some?
    ensures |segs| > 0 && ValidSegments(segs) && Render(segs) == path[4..]
  {
    var ps := SplitSlashed(path[4..]).value;
    ParseParts(ps).value
  }

  /** Only such paths match: a case-insensitive "/api" followed by one or
      more valid segments, the capture being their text. */
  lemma RouteSound(path: string)
    requires Route(path).Some?
    ensures ToLower(path[..4]) == "/api"
    ensures path == path[..4] + Render(Segments(path))
  {
  }

  lemma {:induction false} SlashedShape(parts: seq<string>)
    requires |parts| > 0
    requires forall i :: 0 <= i < |parts| ==> |parts[i]| > 0 && NoSlash(parts[i])
    ensures var t := Slashed(parts); |t| >= 2 && t[0] == '/' && t[|t| - 1] != '/'
    ensures forall i :: 0 <= i < |Slashed(parts)| - 1 ==> !(Slashed(parts)[i] == '/' && Slashed(parts)[i + 1] == '/')
  {
    var t := Slashed(parts);
    var head := "/" + parts[0];
    var rest := Slashed(parts[1..]);
    assert t == head + rest;
    if |parts| > 1 {
      SlashedShape(parts[1..]);
    }
    forall i | 0 <= i < |t| - 1
      ensures !(t[i] == '/' && t[i + 1] == '/')
    {
      if i + 1 < |head| {
        assert t[i + 1] == parts[0][i];
      } else if i + 1 > |head| {
        assert t[i] == rest[i - |head|] && t[i + 1] == rest[i + 1 - |head|];
      } else {
        assert t[i] == parts[0][|parts[0]| - 1];
      }
    }
  }

  /** What a matching path looks like: longer than "/api/", not ending in a
      slash, and with no empty segment ("//") after the prefix. */
  lemma RouteShape(path: string)
    requires Route(path).Some?
    ensures |path| > 5 && path[|path| - 1] != '/'
    ensures forall i :: 4 <= i < |path| - 1 ==> !(path[i] == '/' && path[i + 1] == '/')
  {
    var segs := Segments(path);
    var t := path[4..];
    NamesAndIdsHaveNoSlash(segs);
    PartsOfValid(segs);
    SlashedShape(PartsOf(segs));
    assert Slashed(PartsOf(segs)) == t;
    forall i | 4 <= i < |path| - 1
      ensures !(path[i] == '/' && path[i + 1] == '/')
    {
      assert path[i] == t[i - 4] && path[i + 1] == t[i - 4 + 1];
    }
  }

  /** The first segment of a matching path, up to the next slash, is a name,
      so it holds no digit. */
  lemma RouteFirstSegment(path: string)
    requires Route(path).Some?
    ensures |path| > 5 && path[4] == '/'
    ensures NextSlash(path[5..]) > 0 && IsName(path[5..5 + NextSlash(path[5..])])
  {
    var segs := Segments(path);
    NamesAndIdsHaveNoSlash(segs);
    PartsOfValid(segs);
    var ps := PartsOf(segs);
    var n, rest := ps[0], Slashed(ps[1..]);
    assert path[4..] == "/" + (n + rest);
    assert path[5..] == n + rest;
    SlashedStart(ps[1..]);
    NextSlashAfter(n, rest);
    assert path[5..5 + |n|] == n;
  }
}
