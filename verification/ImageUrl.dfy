/** Printing image URLs and reading the id back. */
module ImageUrl {
  import opened Schema

  datatype Size = Thumbnail | Medium | Large | Original

  function Suffix(size: Size): string {
    match size
    case Thumbnail => "_t"
    case Medium => "_m"
    case Large => "_l"
    case Original => ""
  }

  /** An absent base URL is the empty string; None is the thrown configuration error. */
  function GetImageUrl(imageId: string, size: Size, baseUrl: string, mediaUrl: string): Option<string> {
    var base := if baseUrl != "" then baseUrl else mediaUrl;
    if base == "" then None else Some(base + "/" + imageId + Suffix(size) + JPG)
  }

  /** Every size has its own letter; the given base URL goes before the configured one, and one of them is needed. */
  lemma SizesPrintTheirLetter(imageId: string, baseUrl: string, mediaUrl: string)
    ensures
      var base := if baseUrl == "" then mediaUrl else baseUrl;
      if base == "" then forall size :: GetImageUrl(imageId, size, baseUrl, mediaUrl) == None
      else
        && GetImageUrl(imageId, Thumbnail, baseUrl, mediaUrl) == Some(base + "/" + imageId + "_t.jpg")
        && GetImageUrl(imageId, Medium, baseUrl, mediaUrl) == Some(base + "/" + imageId + "_m.jpg")
        && GetImageUrl(imageId, Large, baseUrl, mediaUrl) == Some(base + "/" + imageId + "_l.jpg")
        && GetImageUrl(imageId, Original, baseUrl, mediaUrl) == Some(base + "/" + imageId + ".jpg")
  {
    var base := if baseUrl == "" then mediaUrl else baseUrl;
    assert base + "/" + imageId + "_t" + JPG == base + "/" + imageId + "_t.jpg";
    assert base + "/" + imageId + "_m" + JPG == base + "/" + imageId + "_m.jpg";
    assert base + "/" + imageId + "_l" + JPG == base + "/" + imageId + "_l.jpg";
    assert base + "/" + imageId + "" + JPG == base + "/" + imageId + ".jpg";
  }

  const JPG := ".jpg"
  const FILE_SCHEME := "file://"

  predicate IsPreview(url: string) {
    FILE_SCHEME <= url
  }

  // ---- the URL parser, on the URLs whose text it copies ----

  /** Characters that a path keeps: printable ASCII that is neither escaped nor a delimiter. */
  predicate Plain(c: char) {
    '!' <= c <= '~' && c !in "\"#%<>?[\\]^`{|}"
  }

  /** A "." or ".." segment after the slash at i, which the parser would remove. */
  predicate DotSegment(p: string, i: nat)
    requires i < |p|
  {
    var rest := p[i + 1..];
    p[i] == '/' && (rest == "." || rest == ".." || "./" <= rest || "../" <= rest)
  }

  predicate CopiedPath(p: string) {
    forall i :: 0 <= i < |p| ==> Plain(p[i]) && !DotSegment(p, i)
  }

  predicate IsOrigin(origin: string) {
    ("http://" < origin || "https://" < origin) && '/' !in origin[SchemeLength(origin)..]
  }

  function SchemeLength(url: string): (n: nat)
    requires "http://" <= url || "https://" <= url
    ensures n <= |url|
  {
    if "http://" <= url then 7 else 8
  }

  /** From the first slash on. */
  function FromSlash(s: string): string {
    if s == "" || s[0] == '/' then s else FromSlash(s[1..])
  }

  /** A text without a scheme, or an http(s) URL whose path the parser takes over unchanged. */
  predicate Modelled(url: string) {
    ':' in url ==> ("http://" <= url || "https://" <= url) && CopiedPath(FromSlash(url[SchemeLength(url)..]))
  }

  /** The pathname of an http(s) URL without query or fragment; None is the parser's exception. */
  function Pathname(url: string): Option<string>
    requires Modelled(url)
  {
    if ':' !in url then None
    else
      var p := FromSlash(url[SchemeLength(url)..]);
      Some(if p == "" then "/" else p)
  }

  lemma {:induction false} FromSlashSkips(host: string, p: string)
    requires '/' !in host && (p != "" ==> p[0] == '/')
    ensures FromSlash(host + p) == p
  {
    if host == "" {
      assert host + p == p;
    } else {
      assert (host + p)[1..] == host[1..] + p;
      FromSlashSkips(host[1..], p);
    }
  }

  lemma PathnameOfPrinted(origin: string, p: string)
    requires IsOrigin(origin) && p != "" && p[0] == '/' && CopiedPath(p)
    ensures Modelled(origin + p)
    ensures Pathname(origin + p) == Some(p)
  {
    assert origin[4] == ':' || origin[5] == ':';
    var n := SchemeLength(origin);
    assert (origin + p)[n..] == origin[n..] + p;
    FromSlashSkips(origin[n..], p);
  }

  // ---- the pattern: slash, a greedy run without underscore, an optional size, ".jpg", end ----

  predicate Ending(rest: string) {
    || rest == JPG
    || (|rest| == 6 && rest[0] == '_' && rest[1] in "tml" && rest[2..] == JPG)
  }

  function RunEnd(p: string, i: nat): (e: nat)
    requires i <= |p|
    ensures i <= e <= |p| && (e < |p| ==> p[e] == '_')
    ensures forall x :: i <= x < e ==> p[x] != '_'
    decreases |p| - i
  {
    if i == |p| || p[i] == '_' then i else RunEnd(p, i + 1)
  }

  /** Backtracking over the ends of the run, longest first; the run may not be empty. */
  function TryEnds(p: string, i: nat, e: nat): Option<string>
    requires i <= e <= |p|
    decreases e
  {
    if e == i then None
    else if Ending(p[e..]) then Some(p[i..e])
    else TryEnds(p, i, e - 1)
  }

  function MatchAt(p: string, i: nat): Option<string>
    requires i < |p|
  {
    if p[i] != '/' then None else TryEnds(p, i + 1, RunEnd(p, i + 1))
  }

  /** The leftmost match. */
  function Search(p: string, i: nat): Option<string>
    requires i <= |p|
    decreases |p| - i
  {
    if i == |p| then None
    else
      var m := MatchAt(p, i);
      if m.Some? then m else Search(p, i + 1)
  }

  function ExtractImageId(url: string): Option<string>
    requires Modelled(url)
  {
    var p := Pathname(url);
    if p.None? then None else Search(p.value, 0)
  }

  // ---- what comes back ----

  /** How much of s its last underscore ends; 0 without one. */
  function LastUnderscore(s: string): (n: nat)
    ensures n <= |s| && (n > 0 ==> s[n - 1] == '_') && forall x :: n <= x < |s| ==> s[x] != '_'
  {
    if s == "" || s[|s| - 1] == '_' then |s| else LastUnderscore(s[..|s| - 1])
  }

  function NextSlash(s: string, i: nat): (t: nat)
    requires i <= |s|
    ensures i <= t <= |s| && (t < |s| ==> s[t] == '/') && forall x :: i <= x < t ==> s[x] != '/'
    decreases |s| - i
  {
    if i == |s| || s[i] == '/' then i else NextSlash(s, i + 1)
  }

  /** The slash of the printed text that follows the base path's last underscore. */
  function StemSlash(path: string, id: string): (t: nat)
    ensures LastUnderscore(path) <= t <= |path|
  {
    var body := path + "/" + id;
    assert body[|path|] == '/';
    NextSlash(body, LastUnderscore(path))
  }

  function Stem(path: string, id: string): string {
    (path + "/" + id)[StemSlash(path, id) + 1..]
  }

  /** A pathname as GetImageUrl prints it. */
  function Printed(path: string, id: string, size: Size): string {
    path + "/" + id + Suffix(size) + JPG
  }

  lemma {:induction false} NoEnds(p: string, i: nat, e: nat)
    requires i <= e <= |p| && forall x :: i < x <= e ==> !Ending(p[x..])
    ensures TryEnds(p, i, e) == None
    decreases e
  {
    if e > i {
      NoEnds(p, i, e - 1);
    }
  }

  lemma {:induction false} LongestEnd(p: string, i: nat, e: nat, end: nat)
    requires i < end <= e <= |p| && Ending(p[end..]) && forall x :: end < x <= e ==> !Ending(p[x..])
    ensures TryEnds(p, i, e) == Some(p[i..end])
    decreases e
  {
    if e > end {
      LongestEnd(p, i, e - 1, end);
    }
  }

  lemma {:induction false} SearchSkips(p: string, i: nat, t: nat)
    requires i <= t <= |p| && forall x :: i <= x < t ==> MatchAt(p, x) == None
    ensures Search(p, i) == Search(p, t)
    decreases t - i
  {
    if i < t {
      SearchSkips(p, i + 1, t);
    }
  }

  /** The facts about a printed pathname that the matching needs. */
  predicate Shape(p: string, end: nat, sized: bool) {
    && end > 0 && |p| == end + (if sized then 6 else 4)
    && Ending(p[end..])
    && (forall x :: end <= x < |p| ==> p[x] != '/')
    && (if sized then p[end] == '_' else forall x :: end <= x < |p| ==> p[x] != '_')
    && (p[end - 1] == '/' || (p[end - 1] != '_' && end > 1 && p[end - 2] != '_'))
  }

  lemma PrintedParts(path: string, id: string, size: Size)
    ensures var p := Printed(path, id, size); var end := |path| + 1 + |id|;
      && |p| == end + |Suffix(size)| + 4
      && p[..|path|] == path && p[|path|] == '/' && p[|path| + 1..end] == id && p[end..] == Suffix(size) + JPG
  {
    hide Suffix;
  }

  lemma PrintedEnding(size: Size)
    ensures var rest := Suffix(size) + JPG;
      && Ending(rest)
      && |rest| == (if size == Original then 4 else 6)
      && '/' !in rest
      && (if size == Original then '_' !in rest else rest[0] == '_')
  {
  }

  lemma PrintedShape(path: string, id: string, size: Size)
    requires '_' !in id
    ensures Shape(Printed(path, id, size), |path| + 1 + |id|, size != Original)
  {
    hide Printed, Suffix, Ending;
    var p := Printed(path, id, size);
    var end := |path| + 1 + |id|;
    PrintedParts(path, id, size);
    PrintedEnding(size);
    assert forall x :: end <= x < |p| ==> p[x] == p[end..][x - end];
    assert forall x :: |path| < x < end ==> p[x] == p[|path| + 1..end][x - |path| - 1];
  }

  lemma EndsOnlyThere(p: string, end: nat, sized: bool, x: nat)
    requires Shape(p, end, sized) && x <= |p| && x != end && (x < end || !sized)
    ensures !Ending(p[x..])
  {
  }

  lemma MatchFound(p: string, i: nat, end: nat, sized: bool)
    requires Shape(p, end, sized) && i + 1 < end && p[i] == '/' && forall x :: i < x < end ==> p[x] != '_'
    ensures MatchAt(p, i) == Some(p[i + 1..end])
  {
    var e := RunEnd(p, i + 1);
    forall x | end < x <= e
      ensures !Ending(p[x..])
    {
      EndsOnlyThere(p, end, sized, x);
    }
    LongestEnd(p, i + 1, e, end);
  }

  lemma MatchMissing(p: string, i: nat, end: nat, sized: bool)
    requires Shape(p, end, sized) && i < |p|
    requires p[i] == '/' ==> i + 1 == end || exists x :: i < x < end && p[x] == '_'
    ensures MatchAt(p, i) == None
  {
    if p[i] == '/' {
      var e := RunEnd(p, i + 1);
      forall x | i + 1 < x <= e
        ensures !Ending(p[x..])
      {
        EndsOnlyThere(p, end, sized, x);
      }
      NoEnds(p, i + 1, e);
    }
  }

  /** The slash at t has no underscore behind it, and every earlier slash has one. */
  predicate StemAt(body: string, t: nat) {
    && t < |body| && body[t] == '/'
    && (forall x :: t < x < |body| ==> body[x] != '_')
    && (forall i :: 0 <= i < t && body[i] == '/' ==> exists x :: i < x < |body| && body[x] == '_')
  }

  lemma StemPlace(path: string, id: string)
    requires '_' !in id
    ensures StemAt(path + "/" + id, StemSlash(path, id))
  {
    hide LastUnderscore, NextSlash;
    var body := path + "/" + id;
    var n := LastUnderscore(path);
    var t := StemSlash(path, id);
    forall i | 0 <= i < t && body[i] == '/'
      ensures exists x :: i < x < |body| && body[x] == '_'
    {
      assert i < n && body[n - 1] == '_';
    }
  }

  /** What the pattern finds in a printed pathname, whatever underscores the base path holds. */
  lemma SearchOfPrinted(path: string, id: string, size: Size)
    requires '_' !in id
    ensures Search(Printed(path, id, size), 0) == if Stem(path, id) == "" then None else Some(Stem(path, id))
  {
    hide Printed, Suffix, StemSlash, Shape;
    var p := Printed(path, id, size);
    var end := |path| + 1 + |id|;
    var sized := size != Original;
    PrintedShape(path, id, size);
    PrintedBody(path, id, size);
    StemPlace(path, id);
    var t := StemSlash(path, id);
    ShapeLength(p, end, sized);
    forall i | 0 <= i < t
      ensures MatchAt(p, i) == None
    {
      MatchMissing(p, i, end, sized);
    }
    SearchSkips(p, 0, t);
    if t + 1 < end {
      assert p[t + 1..end] == (path + "/" + id)[t + 1..];
      MatchFound(p, t, end, sized);
    } else {
      forall i | t <= i < |p|
        ensures MatchAt(p, i) == None
      {
        MatchMissing(p, i, end, sized);
      }
      SearchSkips(p, t, |p|);
    }
  }

  lemma PrintedBody(path: string, id: string, size: Size)
    ensures var p := Printed(path, id, size); var end := |path| + 1 + |id|;
      && |p| > end && p[..end] == path + "/" + id && forall x :: 0 <= x < end ==> p[x] == (path + "/" + id)[x]
  {
    hide Suffix;
  }

  lemma ShapeLength(p: string, end: nat, sized: bool)
    requires Shape(p, end, sized)
    ensures end < |p| && forall x :: end <= x < |p| ==> p[x] != '/'
  {
  }

  lemma {:induction false} EndsAvoidUnderscores(p: string, i: nat, e: nat)
    requires i <= e <= |p| && forall x :: i <= x < e ==> p[x] != '_'
    ensures var m := TryEnds(p, i, e); m.Some? ==> m.value != "" && '_' !in m.value
    decreases e
  {
    if e > i && !Ending(p[e..]) {
      EndsAvoidUnderscores(p, i, e - 1);
    }
  }

  lemma {:induction false} MatchesAvoidUnderscores(p: string, i: nat)
    requires i <= |p|
    ensures var m := Search(p, i); m.Some? ==> m.value != "" && '_' !in m.value
    decreases |p| - i
  {
    if i < |p| {
      if p[i] == '/' {
        EndsAvoidUnderscores(p, i + 1, RunEnd(p, i + 1));
      }
      MatchesAvoidUnderscores(p, i + 1);
    }
  }

  /** The base path has no slash after its last underscore. */
  predicate EndsInUnderscoredSegment(path: string) {
    forall x :: LastUnderscore(path) <= x < |path| ==> path[x] != '/'
  }

  lemma SlashIsLast(path: string, id: string)
    ensures StemSlash(path, id) == |path| <==> EndsInUnderscoredSegment(path)
  {
    hide LastUnderscore, NextSlash;
    var body := path + "/" + id;
    assert forall x :: 0 <= x < |path| ==> body[x] == path[x];
  }

  lemma SlashIsFirst(path: string, id: string)
    requires '_' !in path && (path == "" || path[0] == '/')
    ensures StemSlash(path, id) == 0
  {
    hide LastUnderscore;
    assert (path + "/" + id)[0] == '/';
  }

  lemma StemIsId(path: string, id: string)
    ensures Stem(path, id) == id <==> EndsInUnderscoredSegment(path)
    ensures '_' !in path && (path == "" || path[0] == '/') ==> Stem(path, id) == (path + "/" + id)[1..]
  {
    hide StemSlash, EndsInUnderscoredSegment;
    SlashIsLast(path, id);
    assert (path + "/" + id)[|path| + 1..] == id;
    if '_' !in path && (path == "" || path[0] == '/') {
      SlashIsFirst(path, id);
    }
  }

  /**
   * The id comes back exactly when it is non-empty, holds no underscore, and the base path has no slash after its
   * last underscore. Below a base path without underscore it is path/id that comes back.
   */
  lemma PrintThenExtract(origin: string, path: string, id: string, size: Size, mediaUrl: string) returns (url: string)
    requires IsOrigin(origin) && (path == "" || path[0] == '/') && CopiedPath(Printed(path, id, size))
    ensures GetImageUrl(id, size, origin + path, mediaUrl) == Some(url) && Modelled(url)
    ensures ExtractImageId(url) == Some(id) <==> id != "" && '_' !in id && EndsInUnderscoredSegment(path)
    ensures '_' !in path ==> (ExtractImageId(url) == Some((path + "/" + id)[1..]) <==> '_' !in id && path + id != "")
    ensures '_' !in path && '_' !in id && path + id == "" ==> ExtractImageId(url) == None
  {
    hide CopiedPath, EndsInUnderscoredSegment, StemSlash, IsOrigin, Search, Pathname, Suffix, Modelled;
    var p := Printed(path, id, size);
    PrintedBody(path, id, size);
    url := origin + p;
    OriginNotEmpty(origin);
    assert origin + path + "/" + id + Suffix(size) + JPG == url;
    PathnameOfPrinted(origin, p);
    MatchesAvoidUnderscores(p, 0);
    StemIsId(path, id);
    if '_' !in id {
      SearchOfPrinted(path, id, size);
    } else {
      assert '_' in (path + "/" + id)[1..] by {
        UnderscoreKept(path, id);
      }
    }
  }

  lemma UnderscoreKept(path: string, id: string)
    requires '_' in id
    ensures '_' in (path + "/" + id)[1..]
  {
    var k :| 0 <= k < |id| && id[k] == '_';
    assert (path + "/" + id)[1..][|path| + k] == '_';
  }

  lemma OriginNotEmpty(origin: string)
    requires IsOrigin(origin)
    ensures origin != ""
  {
  }
}
