// The screens the administration site has, and where its retired screens are sent.
module LegacyRoutes {
  import opened Common
  import opened Strings
  import opened PercentCodec

  // ---- segments ----

  predicate IdentityChar(c: char) { 'a' <= c <= 'z' || 'A' <= c <= 'Z' || '0' <= c <= '9' || c == '_' || c == '-' }

  predicate Identity(s: string) { s != "" && forall i :: 0 <= i < |s| ==> IdentityChar(s[i]) }

  predicate Digits(s: string) { forall i :: 0 <= i < |s| ==> '0' <= s[i] <= '9' }

  // Comparison of two digit strings of the same length, as strings.
  predicate AtMost(s: string, t: string)
    requires |s| == |t|
  {
    s == "" || s[0] < t[0] || (s[0] == t[0] && AtMost(s[1..], t[1..]))
  }

  const MAX_REVISION := "9223372036854775807"

  predicate ValidRevision(s: string) {
    && s != "" && s[0] != '0' && Digits(s) && |s| <= 19
    && (|s| == 19 ==> AtMost(s, MAX_REVISION))
  }

  predicate HexLower(s: string) { forall i :: 0 <= i < |s| ==> '0' <= s[i] <= '9' || 'a' <= s[i] <= 'f' }

  predicate SkillRevision(s: string) { |s| == 36 && s[..4] == "rev_" && HexLower(s[4..]) }

  predicate FileName(name: string) {
    && name != "" && name != "." && name != ".."
    && forall i :: 0 <= i < |name| ==> name[i] != '\\' && name[i] >= ' ' && name[i] != 127 as char
  }

  predicate ValidFilePath(parts: seq<string>) {
    && parts != []
    && match Decode(Join(parts, '/'))
       case None => false
       case Some(decoded) => forall name :: name in Split(decoded, '/') ==> FileName(name)
  }

  // The segments behind the leading slash, if every one of them is non-empty.
  function Segments(path: string): Option<seq<string>> {
    var parts := Split(path, '/');
    if parts[0] != "" || "" in parts[1..] then None else Some(parts[1..])
  }

  // ---- screens ----

  const SCREENS := [
    "/", "/libraries", "/search", "/tags", "/trash", "/credentials", "/requests", "/settings", "/help", "/help/agent", "/help/mcp"]

  predicate CanonicalLibrary(p: seq<string>)
    requires |p| >= 2
  {
    if |p| == 2 then true
    else if p[2] == "search" then |p| == 3
    else if p[2] == "tags" then |p| == 4 && Identity(p[3])
    else if p[2] == "sections" then
      |p| >= 4 && Identity(p[3]) && (|p| == 4 || (|p| == 6 && p[4] == "books" && Identity(p[5])))
    else if p[2] == "skills" && |p| == 3 then true
    else if (p[2] != "pages" && p[2] != "skills") || |p| < 4 || !Identity(p[3]) then false
    else if |p| == 4 then true
    else if p[3] == "new" then false
    else if |p| == 5 && p[4] == "edit" then true
    else |p| == 6 && p[4] == "revisions" && (if p[2] == "pages" then ValidRevision(p[5]) else SkillRevision(p[5]))
  }

  predicate Canonical(path: string) {
    || path in SCREENS
    || match Segments(path)
       case None => false
       case Some(p) =>
         if p == [] then false
         else if p[0] == "credentials" then |p| == 2 && Identity(p[1])
         else p[0] == "libraries" && |p| >= 2 && Identity(p[1]) && CanonicalLibrary(p)
  }

  // ---- retired screens ----

  // A destination: a path, and query parameters whose values are identities and need no escaping.
  datatype Destination = Destination(path: string, query: seq<(string, string)>)

  function Fixed(path: string): Option<string> {
    if path == "/login" then Some("/")
    else if path == "/setup" || path == "/master/setup" then Some("/settings")
    else if path == "/agents" || path == "/onboarding-tickets" then Some("/credentials")
    else if path == "/guide" then Some("/help")
    else if path == "/agent" then Some("/help/agent")
    else if path == "/mcp" then Some("/help/mcp")
    else None
  }

  function Path(parts: seq<string>): string { "/" + Join(parts, '/') }

  function Filtered(screen: string, library: string): Destination { Destination("/" + screen, [("library_id", library)]) }

  function LegacyPage(p: seq<string>): Option<Destination>
    requires |p| >= 8
  {
    var page := ["libraries", p[1], "pages", p[7]];
    if |p| == 8 || (|p| == 9 && p[8] == "move") || (|p| == 10 && p[8] == "files" && p[9] == "edit") then Some(Destination(Path(page), []))
    else if |p| < 10 || p[8] != "revisions" || !ValidRevision(p[9]) then None
    else if |p| == 10 || (|p| == 11 && p[10] == "restore") || (p[10] == "files" && ValidFilePath(p[11..]))
    then Some(Destination(Path(page + ["revisions", p[9]]), [])) else None
  }

  function LegacySection(p: seq<string>): Option<Destination>
    requires |p| >= 4
  {
    if |p| > 4 && p[4] == "trash" && (|p| == 5 || (|p| == 6 && Identity(p[5]))) then Some(Filtered("trash", p[1]))
    else if |p| < 6 || p[4] != "books" || !Identity(p[5]) then None
    else if |p| == 7 && p[6] == "new-page" then
      Some(Destination(Path(["libraries", p[1], "pages", "new"]), [("section", p[3]), ("book", p[5])]))
    else if |p| < 8 || p[6] != "pages" || !Identity(p[7]) then None
    else LegacyPage(p)
  }

  function LegacyLibrary(p: seq<string>): Option<Destination>
    requires |p| >= 2
  {
    if |p| == 3 && (p[2] == "trash" || p[2] == "tags") then Some(Filtered(p[2], p[1]))
    else if |p| < 4 || !Identity(p[3]) then None
    else if p[2] == "callers" then
      if |p| == 4 || (|p| == 7 && p[4] == "credentials" && Identity(p[5]) && p[6] == "grants")
      then Some(Destination(Path(["credentials", p[3]]), [("library_id", p[1])])) else None
    else if p[2] == "pages" && |p| >= 7 && p[4] == "revisions" && ValidRevision(p[5]) && p[6] == "preview-images" && ValidFilePath(p[7..]) then
      Some(Destination(Path(["libraries", p[1], "pages", p[3], "revisions", p[5]]), []))
    else if p[2] != "sections" then None
    else LegacySection(p)
  }

  function WithoutTrailingSlash(path: string): string {
    if path != "" && path[|path| - 1] == '/' then path[..|path| - 1] else path
  }

  // Where a retired screen is sent; None when the path is not retired.
  function Legacy(pathname: string): Option<Destination> {
    var path := WithoutTrailingSlash(pathname);
    match Fixed(path)
    case Some(d) => Some(Destination(d, []))
    case None =>
      match Segments(path)
      case None => None
      case Some(p) =>
        if |p| < 2 || p[0] != "libraries" || !Identity(p[1]) then None else LegacyLibrary(p)
  }

  // ---- segments of built paths ----

  lemma PathSegments(parts: seq<string>)
    requires parts != [] && FreeOf(parts, '/') && "" !in parts
    ensures Segments(Path(parts)) == Some(parts) && Path(parts)[|Path(parts)| - 1] != '/'
  {
    assert Join([""] + parts, '/') == Path(parts) by {
      assert ([""] + parts)[1..] == parts;
    }
    assert FreeOf([""] + parts, '/');
    SplitJoin([""] + parts, '/');
    JoinEnd(parts);
  }

  lemma {:induction false} JoinEnd(parts: seq<string>)
    requires parts != [] && FreeOf(parts, '/') && "" !in parts
    ensures Join(parts, '/') != "" && Join(parts, '/')[|Join(parts, '/')| - 1] != '/'
  {
    if |parts| == 1 {
      assert parts[0] in parts;
      assert parts[0][|parts[0]| - 1] in parts[0];
    } else {
      JoinEnd(parts[1..]);
    }
  }

  lemma IdentityFree(s: string)
    requires Identity(s) || ValidRevision(s)
    ensures '/' !in s && s != ""
  {
  }

  // ---- the redirect map ----

  // A path that has segments is the path of its segments.
  lemma PathOfSegments(path: string)
    requires Segments(path).Some? && Segments(path).value != []
    ensures path == Path(Segments(path).value)
    ensures FreeOf(Segments(path).value, '/') && "" !in Segments(path).value
    ensures WithoutTrailingSlash(path) == path
  {
    JoinSplit(path, '/');
    var p := Segments(path).value;
    assert Split(path, '/') == [""] + p;
    assert Join([""] + p, '/') == Path(p) by {
      assert ([""] + p)[1..] == p;
    }
    JoinEnd(p);
  }

  // No fixed retired path starts like a path under these roots.
  lemma NotFixed(p: seq<string>)
    requires |p| >= 2 && (p[0] == "libraries" || p[0] == "credentials")
    ensures Fixed(Path(p)) == None
  {
    var path := Path(p);
    assert path == "/" + (p[0] + "/" + Join(p[1..], '/'));
    assert path[1] == p[0][0] && path[2] == p[0][1];
  }

  lemma SiteIsNotRetired(p: seq<string>)
    requires |p| >= 2 && CanonicalLibrary(p)
    ensures LegacyLibrary(p) == None
  {
    hide Identity, ValidRevision, SkillRevision, ValidFilePath, Path, LegacyPage;
  }

  // The fixed screens outside the libraries.
  lemma ScreenIsNotRetired(p: seq<string>)
    requires p != [] && FreeOf(p, '/') && "" !in p && (|p| == 1 || p[0] != "libraries") && Fixed(Path(p)).None?
    ensures Legacy(Path(p)) == None
  {
    PathSegments(p);
    hide Segments, Path, LegacyLibrary;
  }

  lemma ScreensAreNotRetired(path: string)
    requires path in SCREENS
    ensures Legacy(path) == None
  {
    if path == "/" {
      assert WithoutTrailingSlash(path) == "";
      assert Split("", '/') == [""];
    } else {
      hide Legacy, Segments;
      var p := ScreenSegments(path);
      ScreenIsNotRetired(p);
    }
  }

  lemma HelpScreens()
    ensures Path(["help", "agent"]) == "/help/agent" && Path(["help", "mcp"]) == "/help/mcp"
  {
    assert Path(["help", "agent"]) == "/" + ("help" + "/" + "agent");
    assert Path(["help", "mcp"]) == "/" + ("help" + "/" + "mcp");
  }

  lemma ScreensAreNotFixed(path: string)
    requires path in SCREENS
    ensures Fixed(path).None?
  {
  }

  lemma OneSegment(path: string)
    requires path in SCREENS && path != "/" && path != "/help/agent" && path != "/help/mcp"
    ensures path[0] == '/' && path[1..] != "" && '/' !in path[1..]
  {
  }

  lemma ScreenSegments(path: string) returns (p: seq<string>)
    requires path in SCREENS && path != "/"
    ensures p != [] && FreeOf(p, '/') && "" !in p && (|p| == 1 || p[0] == "help")
    ensures path == Path(p) && Fixed(path).None?
  {
    ScreensAreNotFixed(path);
    HelpScreens();
    if path == "/help/agent" {
      p := ["help", "agent"];
    } else if path == "/help/mcp" {
      p := ["help", "mcp"];
    } else {
      OneSegment(path);
      hide SCREENS, Fixed;
      p := [path[1..]];
      assert path == "/" + path[1..];
    }
  }

  // Paths the site has are not retired.
  lemma CanonicalIsNotRetired(path: string)
    requires Canonical(path)
    ensures Legacy(path) == None
  {
    if path in SCREENS {
      ScreensAreNotRetired(path);
    } else {
      var p := Segments(path).value;
      PathOfSegments(path);
      hide Segments, Path, SCREENS, Identity, CanonicalLibrary, LegacyLibrary;
      NotFixed(p);
      if p[0] == "libraries" {
        SiteIsNotRetired(p);
      }
    }
  }

  // ---- where retired screens go ----

  // A Page's Revision under the identity `new`, which is the screen for a new Page.
  predicate RevisionOfNew(parts: seq<string>) {
    |parts| == 6 && parts[0] == "libraries" && parts[2] == "pages" && parts[3] == "new" && parts[4] == "revisions"
  }

  predicate CanonicalParts(p: seq<string>) {
    || (|p| == 1 && (p[0] == "trash" || p[0] == "tags"))
    || (|p| == 2 && p[0] == "credentials" && Identity(p[1]))
    || (|p| >= 2 && p[0] == "libraries" && Identity(p[1]) && CanonicalLibrary(p))
  }

  // A path below the libraries or the credentials is not one of the listed screens.
  lemma DeepIsNoScreen(parts: seq<string>)
    requires |parts| >= 2 && FreeOf(parts, '/') && "" !in parts && (parts[0] == "libraries" || parts[0] == "credentials")
    ensures Path(parts) !in SCREENS
  {
    PathSegments(parts);
    hide Path, Segments;
    if Path(parts) in SCREENS && Path(parts) != "/" {
      var p := ScreenSegments(Path(parts));
      PathSegments(p);
    }
  }

  lemma FilteredIsCanonical(screen: string)
    requires screen == "trash" || screen == "tags"
    ensures Canonical("/" + screen)
  {
    assert SCREENS[4] == "/trash" && SCREENS[3] == "/tags";
    assert "/" + "trash" == "/trash" && "/" + "tags" == "/tags";
    hide Segments;
  }

  lemma DeepCanonical(parts: seq<string>)
    requires |parts| >= 2 && FreeOf(parts, '/') && "" !in parts && (parts[0] == "libraries" || parts[0] == "credentials")
    ensures Canonical(Path(parts)) <==> CanonicalParts(parts)
  {
    DeepIsNoScreen(parts);
    PathSegments(parts);
    hide SCREENS, Segments, Path, Identity, CanonicalLibrary;
  }

  // The retired path names a Revision of a Page whose identity is `new`.
  predicate NamesRevisionOfNew(p: seq<string>) {
    && |p| >= 4 && p[0] == "libraries"
    && ((p[2] == "pages" && p[3] == "new") || (p[2] == "sections" && |p| >= 10 && p[7] == "new" && p[8] == "revisions"))
  }

  predicate OfNewRevision(pathname: string) {
    match Segments(WithoutTrailingSlash(pathname))
    case None => false
    case Some(p) => NamesRevisionOfNew(p)
  }

  // Path segments that can stand in a destination.
  ghost predicate Deep(parts: seq<string>) {
    |parts| >= 2 && FreeOf(parts, '/') && "" !in parts && (parts[0] == "libraries" || parts[0] == "credentials")
  }

  // A destination is one of the two filtered screens, or a deep path that is canonical unless it is a
  // Revision of `new`.
  ghost predicate GoodDestination(d: Destination, ofNew: bool) {
    || (!ofNew && (d.path == "/" + "trash" || d.path == "/" + "tags"))
    || (exists parts :: Deep(parts) && d.path == Path(parts) && (CanonicalParts(parts) <==> !ofNew) && (ofNew ==> RevisionOfNew(parts)))
  }

  lemma PageIsGood(library: string, page: string, ofNew: bool)
    requires Identity(library) && Identity(page) && !ofNew
    ensures GoodDestination(Destination(Path(["libraries", library, "pages", page]), []), ofNew)
  {
    var parts := ["libraries", library, "pages", page];
    IdentityFree(library);
    IdentityFree(page);
    assert Deep(parts);
    hide Identity, Path;
    assert CanonicalParts(parts);
  }

  lemma NewPageIsGood(p: seq<string>, query: seq<(string, string)>)
    requires |p| >= 4 && Identity(p[1])
    ensures GoodDestination(Destination(Path(["libraries", p[1], "pages", "new"]), query), false)
  {
    PageIsGood(p[1], "new", false);
  }

  lemma RevisionIsGood(library: string, page: string, revision: string)
    requires Identity(library) && Identity(page) && ValidRevision(revision)
    ensures GoodDestination(Destination(Path(["libraries", library, "pages", page, "revisions", revision]), []), page == "new")
  {
    var parts := ["libraries", library, "pages", page, "revisions", revision];
    IdentityFree(library);
    IdentityFree(page);
    IdentityFree(revision);
    assert Deep(parts);
    hide Identity, Path, ValidRevision;
    assert CanonicalParts(parts) <==> page != "new";
  }

  lemma CallerIsGood(caller: string, library: string)
    requires Identity(caller)
    ensures GoodDestination(Destination(Path(["credentials", caller]), [("library_id", library)]), false)
  {
    var parts := ["credentials", caller];
    IdentityFree(caller);
    assert Deep(parts);
    hide Identity, Path;
    assert CanonicalParts(parts);
  }

  lemma LegacyPageGoes(p: seq<string>)
    requires |p| >= 8 && p[0] == "libraries" && p[2] == "sections" && Identity(p[1]) && Identity(p[7]) && LegacyPage(p).Some?
    ensures GoodDestination(LegacyPage(p).value, NamesRevisionOfNew(p))
  {
    hide Identity, ValidRevision, ValidFilePath, GoodDestination, Path;
    var page := ["libraries", p[1], "pages", p[7]];
    if |p| == 8 || (|p| == 9 && p[8] == "move") || (|p| == 10 && p[8] == "files" && p[9] == "edit") {
      PageIsGood(p[1], p[7], false);
    } else {
      assert page + ["revisions", p[9]] == ["libraries", p[1], "pages", p[7], "revisions", p[9]];
      RevisionIsGood(p[1], p[7], p[9]);
    }
  }

  lemma LegacySectionGoes(p: seq<string>)
    requires |p| >= 4 && p[0] == "libraries" && p[2] == "sections" && Identity(p[1]) && LegacySection(p).Some?
    ensures GoodDestination(LegacySection(p).value, NamesRevisionOfNew(p))
  {
    if |p| > 4 && p[4] == "trash" {
      assert !NamesRevisionOfNew(p) || |p| >= 10;
    } else if |p| == 7 && p[6] == "new-page" {
      NewPageIsGood(p, [("section", p[3]), ("book", p[5])]);
    } else {
      hide GoodDestination, Identity;
      LegacyPageGoes(p);
    }
  }

  lemma LegacyLibraryGoes(p: seq<string>)
    requires |p| >= 2 && p[0] == "libraries" && Identity(p[1]) && LegacyLibrary(p).Some?
    ensures GoodDestination(LegacyLibrary(p).value, NamesRevisionOfNew(p))
  {
    hide Identity, ValidRevision, ValidFilePath, Path, LegacySection;
    if |p| == 3 && (p[2] == "trash" || p[2] == "tags") {
    } else if p[2] == "callers" {
      CallerIsGood(p[3], p[1]);
    } else if p[2] == "pages" {
      RevisionIsGood(p[1], p[3], p[5]);
    } else {
      LegacySectionGoes(p);
    }
  }

  lemma GoodIsCanonical(d: Destination, ofNew: bool)
    requires GoodDestination(d, ofNew)
    ensures Canonical(d.path) <==> !ofNew
    ensures Legacy(d.path) == None
  {
    hide Canonical, Legacy, Path, CanonicalParts;
    if !ofNew && (d.path == "/" + "trash" || d.path == "/" + "tags") {
      FilteredIsCanonical(if d.path == "/" + "trash" then "trash" else "tags");
    } else {
      var parts :| Deep(parts) && d.path == Path(parts) && (CanonicalParts(parts) <==> !ofNew) && (ofNew ==> RevisionOfNew(parts));
      DeepCanonical(parts);
      if ofNew {
        RevisionOfNewIsNotRetired(parts);
      }
    }
    if Canonical(d.path) {
      CanonicalIsNotRetired(d.path);
    }
  }

  lemma RevisionOfNewIsNotRetired(parts: seq<string>)
    requires Deep(parts) && RevisionOfNew(parts)
    ensures Legacy(Path(parts)) == None
  {
    PathSegments(parts);
    NotFixed(parts);
    hide Path, Segments, Identity, ValidRevision;
  }

  lemma FixedIsCanonical(path: string)
    requires Fixed(path).Some?
    ensures Canonical(Fixed(path).value)
  {
    assert SCREENS[0] == "/" && SCREENS[7] == "/settings" && SCREENS[5] == "/credentials" && SCREENS[8] == "/help";
    assert SCREENS[9] == "/help/agent" && SCREENS[10] == "/help/mcp";
    hide Segments;
  }

  // Every retired path is sent in one hop to a path that is not itself retired, and that the site has
  // unless the retired path names a Revision of a Page whose identity is `new`.
  lemma RetiredGoesToCanonical(pathname: string)
    requires Legacy(pathname).Some?
    ensures var d := Legacy(pathname).value;
            Legacy(d.path) == None && (Canonical(d.path) <==> !OfNewRevision(pathname))
  {
    var path := WithoutTrailingSlash(pathname);
    if Fixed(path).Some? {
      FixedIsCanonical(path);
      CanonicalIsNotRetired(Fixed(path).value);
      if OfNewRevision(pathname) {
        PathOfSegments(path);
        NotFixed(Segments(path).value);
      }
    } else {
      var p := Segments(path).value;
      hide Segments, Identity, GoodDestination, LegacyLibrary, Fixed;
      LegacyLibraryGoes(p);
      GoodIsCanonical(Legacy(pathname).value, NamesRevisionOfNew(p));
    }
  }

  function PreviewParts(library: string, revision: string, file: string): seq<string> {
    ["libraries", library, "pages", "new", "revisions", revision, "preview-images", file]
  }

  lemma PreviewSegments(library: string, revision: string, file: string)
    requires Identity(library) && ValidRevision(revision) && '/' !in file && file != ""
    ensures var parts := PreviewParts(library, revision, file);
            Segments(Path(parts)) == Some(parts) && WithoutTrailingSlash(Path(parts)) == Path(parts) && Fixed(Path(parts)).None?
  {
    var parts := PreviewParts(library, revision, file);
    IdentityFree(library);
    IdentityFree(revision);
    PathSegments(parts);
    NotFixed(parts);
    hide Segments, Path, Fixed, Identity, ValidRevision;
  }

  lemma PreviewIsRetired(library: string, revision: string, file: string)
    requires Identity(library) && ValidRevision(revision) && ValidFilePath([file])
    ensures var parts := PreviewParts(library, revision, file);
            |parts| >= 2 && parts[0] == "libraries" && parts[1] == library && LegacyLibrary(parts).Some? && NamesRevisionOfNew(parts)
  {
    var parts := PreviewParts(library, revision, file);
    NewIsIdentity();
    hide Path, Identity, ValidRevision, ValidFilePath;
    assert parts[7..] == [file];
  }

  // Such paths: the old preview screens of the Revisions of `new`.
  lemma PreviewOfNewIsLost(library: string, revision: string, file: string)
    requires Identity(library) && ValidRevision(revision) && ValidFilePath([file]) && '/' !in file && file != ""
    ensures var p := Path(PreviewParts(library, revision, file));
            Legacy(p).Some? && !Canonical(Legacy(p).value.path)
  {
    PreviewSegments(library, revision, file);
    PreviewIsRetired(library, revision, file);
    hide Segments, Path, Identity, ValidRevision, ValidFilePath, PreviewParts, LegacyLibrary, NamesRevisionOfNew, Canonical, Fixed;
    RetiredGoesToCanonical(Path(PreviewParts(library, revision, file)));
  }

  lemma NewIsIdentity()
    ensures Identity("new") && Identity("a") && ValidRevision("1")
  {
  }

  lemma NewRevisionIsLost()
    ensures var p := Path(PreviewParts("a", "1", "x"));
            Legacy(p).Some? && !Canonical(Legacy(p).value.path)
  {
    OneFile();
    NewIsIdentity();
    hide Path, Legacy, Canonical, ValidFilePath, Identity, ValidRevision;
    PreviewOfNewIsLost("a", "1", "x");
  }

  lemma OneFile()
    ensures ValidFilePath(["x"])
  {
    assert "x"[1..] == "";
    assert Decode("x") == Prepend('x', Decode(""));
    assert Join(["x"], '/') == "x";
    IndexIs("x", '/', 0, 1);
    assert Split("x", '/') == ["x"];
  }
}
