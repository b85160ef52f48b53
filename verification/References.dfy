// Relative links between the files of a Page, and what a rename does to them.
module References {
  import opened Common
  import opened Strings
  import opened PercentCodec

  type Path = string

  // ---- resolving a link target ----

  datatype Local = Local(path: Path, suffix: string)

  predicate Letter(c: char) { 'a' <= c <= 'z' || 'A' <= c <= 'Z' }
  predicate SchemeChar(c: char) { Letter(c) || '0' <= c <= '9' || c == '+' || c == '.' || c == '-' }

  predicate HasScheme(target: string) {
    |target| > 0 && Letter(target[0]) && exists n :: 0 < n < |target| && target[n] == ':' && forall i :: 0 <= i < n ==> SchemeChar(target[i])
  }

  predicate ControlFree(s: string) { forall i :: 0 <= i < |s| ==> s[i] >= ' ' }

  predicate NotLocal(target: string) {
    HasScheme(target) || (|target| > 0 && (target[0] == '/' || target[0] == '\\')) || !ControlFree(target)
  }

  predicate Marker(c: char) { c == '?' || c == '#' }

  // Where the suffix starts: the first ? or #, or the end.
  function MarkerIndex(s: string, i: nat): (e: nat)
    requires i <= |s|
    ensures i <= e <= |s| && (e < |s| ==> Marker(s[e])) && forall j :: i <= j < e ==> !Marker(s[j])
    decreases |s| - i
  {
    if i == |s| || Marker(s[i]) then i else MarkerIndex(s, i + 1)
  }

  // The directory of a file, as path segments.
  function Directory(file: Path): seq<string> { var s := Split(file, '/'); s[..|s| - 1] }

  // Walks the segments from a directory; None when `..` would leave the root.
  function Walk(parts: seq<string>, segments: seq<string>): Option<seq<string>> {
    if segments == [] then Some(parts)
    else match Walk(parts, segments[..|segments| - 1])
         case None => None
         case Some(now) => WalkOne(now, segments[|segments| - 1])
  }

  function WalkOne(parts: seq<string>, segment: string): Option<seq<string>> {
    if segment == "" || segment == "." then Some(parts)
    else if segment == ".." then (if parts == [] then None else Some(parts[..|parts| - 1]))
    else Some(parts + [segment])
  }

  function Resolve(sourceFile: Path, target: string): Option<Local> {
    if NotLocal(target) then None
    else
      var m := MarkerIndex(target, 0);
      match Decode(target[..m])
      case None => None
      case Some(path) =>
        match Walk(Directory(sourceFile), Split(path, '/'))
        case None => None
        case Some(parts) => Some(Local(Join(parts, '/'), target[m..]))
  }

  method ResolveLocalTarget(sourceFile: Path, target: string) returns (r: Option<Local>)
    ensures r == Resolve(sourceFile, target)
  {
    if NotLocal(target) {
      return None;
    }
    var m := MarkerIndex(target, 0);
    var decoded := Decode(target[..m]);
    if decoded.None? {
      return None;
    }
    var parts := Directory(sourceFile);
    var segments := Split(decoded.value, '/');
    for i := 0 to |segments|
      invariant Walk(Directory(sourceFile), segments[..i]) == Some(parts)
    {
      assert segments[..i + 1][..i] == segments[..i];
      var part := segments[i];
      if part == "" || part == "." {
        continue;
      }
      if part == ".." {
        if parts == [] {
          WalkStops(Directory(sourceFile), segments, i + 1);
          return None;
        }
        parts := parts[..|parts| - 1];
      } else {
        parts := parts + [part];
      }
    }
    assert segments[..|segments|] == segments;
    r := Some(Local(Join(parts, '/'), target[m..]));
  }

  lemma {:induction false} WalkStops(parts: seq<string>, segments: seq<string>, n: nat)
    requires n <= |segments| && Walk(parts, segments[..n]).None?
    ensures Walk(parts, segments).None?
  {
    if n < |segments| {
      assert segments[..|segments| - 1][..n] == segments[..n];
      WalkStops(parts, segments[..|segments| - 1], n);
    } else {
      assert segments[..n] == segments;
    }
  }

  // ---- the relative path from one file to another ----

  // How many leading segments two lists share.
  function Shared(a: seq<string>, b: seq<string>): (k: nat)
    ensures k <= |a| && k <= |b| && a[..k] == b[..k]
  {
    if a != [] && b != [] && a[0] == b[0] then
      var k := Shared(a[1..], b[1..]);
      assert a[..k + 1] == [a[0]] + a[1..][..k];
      assert b[..k + 1] == [b[0]] + b[1..][..k];
      k + 1
    else 0
  }

  function Ups(n: nat): seq<string> { seq(n, i => "..") }

  function RelativeSegments(sourceFile: Path, target: Path): seq<string> {
    var from, to := Directory(sourceFile), Split(target, '/');
    var k := Shared(from, to);
    Ups(|from| - k) + to[k..]
  }

  function Relative(sourceFile: Path, target: Path): Path { Join(RelativeSegments(sourceFile, target), '/') }

  method RelativeTarget(sourceFile: Path, target: Path) returns (r: Path)
    ensures r == Relative(sourceFile, target)
  {
    var from, to := Directory(sourceFile), Split(target, '/');
    ghost var directory, segments, k: nat := from, to, 0;
    while from != [] && to != [] && from[0] == to[0]
      invariant k <= |directory| && k <= |segments| && from == directory[k..] && to == segments[k..]
      invariant Shared(directory, segments) == k + Shared(from, to)
    {
      from, to, k := from[1..], to[1..], k + 1;
    }
    assert Shared(from, to) == 0;
    r := Join(Ups(|from|) + to, '/');
  }

  function EncodeAll(segments: seq<string>): seq<string> {
    seq(|segments|, i requires 0 <= i < |segments| => Encode(segments[i]))
  }

  // The path as it is written into a link: every segment encoded, the slashes kept.
  function EncodePath(path: Path): string { Join(EncodeAll(Split(path, '/')), '/') }

  // The link a rename writes.
  function Link(sourceFile: Path, target: Path, suffix: string): string {
    EncodePath(Relative(sourceFile, target)) + suffix
  }

  // ---- a written link reads as the path it was written from ----

  lemma DecodeSlash(tail: string)
    ensures Decode("/" + tail) == Prepend('/', Decode(tail))
  {
    assert ("/" + tail)[1..] == tail;
  }

  lemma Regroup(a: string, b: string, c: string)
    ensures a + b + c == a + (b + c)
  {
  }

  lemma {:induction false} DecodeJoin(segments: seq<string>)
    ensures Decode(Join(EncodeAll(segments), '/')) == Some(Join(segments, '/'))
  {
    if segments != [] {
      hide Decode, Encode;
      var first, rest := segments[0], segments[1..];
      assert EncodeAll(segments) == [Encode(first)] + EncodeAll(rest);
      if rest == [] {
        DecodeNothing();
        DecodeEncode(first, "");
        assert Encode(first) + "" == Encode(first) && first + "" == first;
      } else {
        DecodeJoin(rest);
        var tail, plain := Join(EncodeAll(rest), '/'), Join(rest, '/');
        DecodeSlash(tail);
        assert Decode("/" + tail) == Some("/" + plain);
        DecodeEncode(first, "/" + tail);
        assert EncodeAll(segments)[1..] == EncodeAll(rest);
        hide Join;
        Regroup(Encode(first), "/", tail);
        Regroup(first, "/", plain);
      }
    }
  }

  lemma DecodeNothing()
    ensures Decode("") == Some("")
  {
  }

  lemma DecodePath(path: Path)
    ensures Decode(EncodePath(path)) == Some(path)
  {
    DecodeJoin(Split(path, '/'));
    JoinSplit(path, '/');
  }

  predicate PathChar(c: char) { Encoded(c) || c == '/' }

  predicate PathText(s: string) { forall i :: 0 <= i < |s| ==> PathChar(s[i]) }

  lemma {:induction false} JoinAlphabet(segments: seq<string>)
    ensures PathText(Join(EncodeAll(segments), '/'))
  {
    if segments != [] {
      assert EncodeAll(segments) == [Encode(segments[0])] + EncodeAll(segments[1..]);
      EncodeAlphabet(segments[0]);
      JoinAlphabet(segments[1..]);
    }
  }

  // A suffix is empty, or starts at its ? or #; it holds no control character.
  predicate Suffix(s: string) { ControlFree(s) && (s != "" ==> Marker(s[0])) }

  lemma {:induction false} MarkerIs(s: string, i: nat, n: nat)
    requires i <= n <= |s| && (n < |s| ==> Marker(s[n])) && forall j :: i <= j < n ==> !Marker(s[j])
    ensures MarkerIndex(s, i) == n
    decreases n - i
  {
    if i < n {
      MarkerIs(s, i + 1, n);
    }
  }

  // A written link is refused as not local exactly when its path is absolute.
  lemma LinkIsLocal(path: string, suffix: string)
    requires PathText(path) && Suffix(suffix)
    ensures NotLocal(path + suffix) <==> path != "" && path[0] == '/'
    ensures MarkerIndex(path + suffix, 0) == |path|
  {
    var link := path + suffix;
    forall i | 0 <= i < |link| ensures link[i] >= ' ' && (link[i] == ':' || Marker(link[i]) || link[i] == '\\' ==> i >= |path|) {
      assert i < |path| ==> link[i] == path[i] && PathChar(path[i]);
      assert i >= |path| ==> link[i] == suffix[i - |path|];
    }
    MarkerIs(link, 0, |path|);
    assert |path| < |link| ==> Marker(link[|path|]) && !SchemeChar(link[|path|]);
    if HasScheme(link) {
      assert false;
    }
  }

  lemma EncodedStart(path: Path)
    ensures (EncodePath(path) != "" && EncodePath(path)[0] == '/') <==> (path != "" && path[0] == '/')
  {
    var segments := Split(path, '/');
    var encoded := EncodeAll(segments);
    JoinSplit(path, '/');
    EncodeAlphabet(segments[0]);
    assert encoded[0] == Encode(segments[0]);
    if segments[0] != "" {
      assert segments[0][0] != '/';
    }
  }

  // Resolving a written link is walking the segments of its path.
  lemma ResolveLink(sourceFile: Path, path: Path, suffix: string)
    requires Suffix(suffix)
    ensures Resolve(sourceFile, EncodePath(path) + suffix)
         == if path != "" && path[0] == '/' then None
            else match Walk(Directory(sourceFile), Split(path, '/'))
                 case None => None
                 case Some(parts) => Some(Local(Join(parts, '/'), suffix))
  {
    var link := EncodePath(path) + suffix;
    JoinAlphabet(Split(path, '/'));
    LinkIsLocal(EncodePath(path), suffix);
    EncodedStart(path);
    DecodePath(path);
    assert link[..|EncodePath(path)|] == EncodePath(path) && link[|EncodePath(path)|..] == suffix;
    hide EncodePath, Walk, NotLocal, Split, Decode;
  }

  // ---- walking up and down ----

  predicate Plain(segment: string) { segment != "" && segment != "." && segment != ".." }

  predicate AllPlain(segments: seq<string>) { forall i :: 0 <= i < |segments| ==> Plain(segments[i]) }

  lemma {:induction false} WalkConcat(parts: seq<string>, a: seq<string>, b: seq<string>)
    ensures Walk(parts, a + b) == match Walk(parts, a) case None => None case Some(p) => Walk(p, b)
  {
    if b == [] {
      assert a + b == a;
    } else {
      assert (a + b)[..|a + b| - 1] == a + b[..|b| - 1];
      WalkConcat(parts, a, b[..|b| - 1]);
    }
  }

  lemma {:induction false} WalkUps(parts: seq<string>, n: nat)
    requires n <= |parts|
    ensures Walk(parts, Ups(n)) == Some(parts[..|parts| - n])
  {
    if n > 0 {
      assert Ups(n)[..n - 1] == Ups(n - 1);
      WalkUps(parts, n - 1);
      assert parts[..|parts| - (n - 1)][..|parts| - n] == parts[..|parts| - n];
    } else {
      assert parts[..|parts| - n] == parts;
    }
  }

  // Plain segments are appended; anything else leaves the result shorter.
  lemma {:induction false} WalkDown(parts: seq<string>, segments: seq<string>)
    ensures AllPlain(segments) ==> Walk(parts, segments) == Some(parts + segments)
    ensures !AllPlain(segments) && Walk(parts, segments).Some? ==> |Walk(parts, segments).value| < |parts| + |segments|
    ensures Walk(parts, segments).Some? ==> |Walk(parts, segments).value| <= |parts| + |segments|
  {
    if segments != [] {
      var before, last := segments[..|segments| - 1], segments[|segments| - 1];
      WalkDown(parts, before);
      assert segments == before + [last];
      assert AllPlain(segments) <==> AllPlain(before) && Plain(last);
      assert parts + before + [last] == parts + segments;
    } else {
      assert parts + segments == parts;
    }
  }

  // Every part of the result comes from the directory or from the path.
  lemma {:induction false} WalkParts(parts: seq<string>, segments: seq<string>)
    requires FreeOf(parts, '/') && FreeOf(segments, '/')
    ensures Walk(parts, segments).Some? ==> FreeOf(Walk(parts, segments).value, '/')
  {
    if segments != [] {
      WalkParts(parts, segments[..|segments| - 1]);
    }
  }

  // ---- the round trip ----

  // The segments of the target that the relative path spells out.
  function Spelled(sourceFile: Path, target: Path): seq<string> {
    var to := Split(target, '/');
    to[Shared(Directory(sourceFile), to)..]
  }

  lemma SplitRelative(sourceFile: Path, target: Path)
    ensures var segments := RelativeSegments(sourceFile, target);
            && FreeOf(segments, '/')
            && Split(Relative(sourceFile, target), '/') == if segments == [] then [""] else segments
  {
    JoinSplit(target, '/');
    SplitJoin(RelativeSegments(sourceFile, target), '/');
  }

  // Walking the relative path goes up to the shared directory and down the rest of the target.
  lemma WalkUpAndDown(from: seq<string>, to: seq<string>, k: nat)
    requires k <= |from| && k <= |to| && from[..k] == to[..k]
    ensures Walk(from, Ups(|from| - k) + to[k..]) == Walk(to[..k], to[k..])
  {
    WalkUps(from, |from| - k);
    WalkConcat(from, Ups(|from| - k), to[k..]);
    hide Walk, Ups;
    assert |from| - (|from| - k) == k;
  }

  lemma WalkNothing(parts: seq<string>)
    ensures Walk(parts, [""]) == Some(parts) && Walk(parts, []) == Some(parts)
  {
    assert [""][..0] == [];
  }

  lemma WalkRelative(sourceFile: Path, target: Path)
    ensures var k := Shared(Directory(sourceFile), Split(target, '/'));
            Walk(Directory(sourceFile), Split(Relative(sourceFile, target), '/'))
            == Walk(Split(target, '/')[..k], Spelled(sourceFile, target))
  {
    var from, to := Directory(sourceFile), Split(target, '/');
    var k := Shared(from, to);
    SplitRelative(sourceFile, target);
    hide Split, Directory, Shared, Walk, Relative;
    WalkUpAndDown(from, to, k);
    WalkNothing(from);
  }

  // Walking down from part of the target reaches it exactly when every segment walked is plain.
  lemma DownReaches(target: Path, k: nat)
    requires k <= |Split(target, '/')| && target != ""
    ensures var to := Split(target, '/');
            var r := Walk(to[..k], to[k..]);
            (r.Some? && Join(r.value, '/') == target) <==> AllPlain(to[k..])
  {
    var to := Split(target, '/');
    WalkDown(to[..k], to[k..]);
    assert to[..k] + to[k..] == to;
    JoinSplit(target, '/');
    WalkParts(to[..k], to[k..]);
    var r := Walk(to[..k], to[k..]);
    hide Walk, AllPlain, Split;
    if r.Some? && Join(r.value, '/') == target {
      SplitJoin(r.value, '/');
      assert r.value != [];
      assert r.value == to;
    }
  }

  // The path from a walk is the target exactly when every spelled-out segment is plain, or the target
  // is the empty path.
  lemma WalkReaches(sourceFile: Path, target: Path)
    ensures var r := Walk(Directory(sourceFile), Split(Relative(sourceFile, target), '/'));
            (r.Some? && Join(r.value, '/') == target) <==> (target == "" || AllPlain(Spelled(sourceFile, target)))
  {
    var to := Split(target, '/');
    var k := Shared(Directory(sourceFile), to);
    WalkRelative(sourceFile, target);
    if target == "" {
      NothingReached(k);
    } else {
      hide Walk, AllPlain, Shared, Directory;
      DownReaches(target, k);
    }
  }

  lemma NothingReached(k: nat)
    requires k <= |Split("", '/')|
    ensures var to := Split("", '/');
            k == 1 || k == 0 ==> Walk(to[..k], to[k..]) == Some(to[..k]) && Join(to[..k], '/') == ""
    ensures Split("", '/') == [""]
  {
    if k == 0 {
      assert [""][..0] == [] && [""][0..] == [""];
    } else {
      assert [""][..1] == [""] && [""][1..] == [];
    }
    WalkNothing(Split("", '/')[..k]);
  }

  lemma JoinStart(pieces: seq<string>, sep: char)
    requires pieces != [] && FreeOf(pieces, sep)
    ensures Join(pieces, sep) != "" && Join(pieces, sep)[0] == sep ==> pieces[0] == ""
  {
  }

  // A relative path is absolute only when a spelled-out segment is empty.
  lemma RelativeIsRelative(sourceFile: Path, target: Path)
    requires Relative(sourceFile, target) != "" && Relative(sourceFile, target)[0] == '/'
    ensures target != "" && !AllPlain(Spelled(sourceFile, target))
  {
    var segments := RelativeSegments(sourceFile, target);
    var k := Shared(Directory(sourceFile), Split(target, '/'));
    SplitRelative(sourceFile, target);
    JoinSplit(Relative(sourceFile, target), '/');
    assert segments != [];
    JoinStart(segments, '/');
    assert target == "" ==> Split(target, '/') == [""];
    assert |Directory(sourceFile)| == k;
    assert segments == Spelled(sourceFile, target);
  }

  // A written link resolves to the target with its suffix exactly when the target is the empty path or
  // every segment it does not share with the directory of the source is plain.
  lemma LinkRoundTrip(sourceFile: Path, target: Path, suffix: string)
    requires Suffix(suffix)
    ensures Resolve(sourceFile, Link(sourceFile, target, suffix)) == Some(Local(target, suffix))
       <==> target == "" || AllPlain(Spelled(sourceFile, target))
  {
    var path := Relative(sourceFile, target);
    ResolveLink(sourceFile, path, suffix);
    WalkReaches(sourceFile, target);
    hide EncodePath, Walk, Resolve, Relative, Spelled, Split;
    if path != "" && path[0] == '/' {
      RelativeIsRelative(sourceFile, target);
    }
  }

  // Non-empty segments that are not dot segments always make a round trip.
  lemma PlainTargetRoundTrip(sourceFile: Path, target: Path, suffix: string)
    requires Suffix(suffix) && AllPlain(Split(target, '/'))
    ensures Resolve(sourceFile, Link(sourceFile, target, suffix)) == Some(Local(target, suffix))
  {
    LinkRoundTrip(sourceFile, target, suffix);
  }

  // The link a rename writes into `file` resolves, from where `file` is afterwards, to the new name.
  lemma RenamedLinkResolves(file: Path, oldName: Path, newName: Path, suffix: string)
    requires Suffix(suffix) && AllPlain(Split(newName, '/'))
    ensures var holder := if file == oldName then newName else file;
            Resolve(holder, Link(holder, newName, suffix)) == Some(Local(newName, suffix))
  {
    PlainTargetRoundTrip(if file == oldName then newName else file, newName, suffix);
  }

  // In the renamed file itself only the last segment of the new name has to be plain.
  lemma SelfLinkResolves(newName: Path, suffix: string)
    requires Suffix(suffix)
    ensures var s := Split(newName, '/');
            Resolve(newName, Link(newName, newName, suffix)) == Some(Local(newName, suffix))
            <==> newName == "" || Plain(s[|s| - 1])
  {
    LinkRoundTrip(newName, newName, suffix);
    SpelledToItself(newName);
    hide Resolve, Link, Split, Spelled;
  }

  lemma SpelledToItself(file: Path)
    ensures var s := Split(file, '/');
            Spelled(file, file) == [s[|s| - 1]]
  {
    var s := Split(file, '/');
    SharedWithItself(s[..|s| - 1], s[|s| - 1]);
    assert s[..|s| - 1] + [s[|s| - 1]] == s;
  }

  lemma {:induction false} SharedWithItself(a: seq<string>, last: string)
    ensures Shared(a, a + [last]) == |a|
  {
    if a != [] {
      assert (a + [last])[1..] == a[1..] + [last];
      SharedWithItself(a[1..], last);
    }
  }
}
